/** The chunk manager: which chunk positions are built, loaded or unloaded,
    the chunk the player is in, and a LIFO queue of positions still to build,
    drained by at most a fixed number of chunks per tick. */
module ChunkManagement {
  import opened Utils
  import opened VoxelTypes
  import opened Chunks
  import opened ChunkBuilder

  /** Chebyshev radius, in chunks, of the square kept loaded around the player. */
  const CHUNK_LOAD_DISTANCE: int := 4
  /** Chunks built per call to `update`. */
  const CHUNKS_TO_BUILT_PER_TICK: nat := 1
  /** Side of the square of chunk positions around the player. */
  const SIDE: int := 2 * CHUNK_LOAD_DISTANCE + 1

  datatype ChunkState = Loaded | Unloaded

  type ChunkPos = (int, int)
  type Entry = (Chunk, ChunkState)

  /** The manager's three fields as one value. */
  datatype Streaming = Streaming(chunks: seq<Entry>, currentChunk: ChunkPos, chunkQueue: seq<ChunkPos>)

  function Abs(x: int): nat {
    if x < 0 then -x else x
  }

  function Min(a: int, b: int): int {
    if a < b then a else b
  }

  /** `p` lies in the square of radius `CHUNK_LOAD_DISTANCE` around `center`. */
  predicate WithinLoadDistance(center: ChunkPos, p: ChunkPos) {
    Abs(p.0 - center.0) <= CHUNK_LOAD_DISTANCE && Abs(p.1 - center.1) <= CHUNK_LOAD_DISTANCE
  }

  /** Some built chunk, loaded or not, sits at `p`. */
  predicate IsBuilt(chunks: seq<Entry>, p: ChunkPos) {
    exists i :: 0 <= i < |chunks| && chunks[i].0.position == p
  }

  /** No two built chunks share a position. */
  predicate UniquePositions(chunks: seq<Entry>) {
    forall i, j :: 0 <= i < j < |chunks| ==> chunks[i].0.position != chunks[j].0.position
  }

  /** The invariant every public operation keeps: built positions are unique,
      the queue holds no position twice and no position already built. */
  predicate ValidStreaming(s: Streaming) {
    && UniquePositions(s.chunks)
    && NoDuplicates(s.chunkQueue)
    && forall i :: 0 <= i < |s.chunkQueue| ==> !IsBuilt(s.chunks, s.chunkQueue[i])
  }

  /** The strategy can be applied to any freshly constructed chunk. */
  predicate FitsFreshChunks(strategy: ChunkGenStrategy) {
    strategy.SingleVoxels? ==> forall i :: 0 <= i < |strategy.voxels| ==> InChunk(strategy.voxels[i])
  }

  lemma FreshChunkApplicable(strategy: ChunkGenStrategy, p: ChunkPos, noise: NoiseField)
    requires FitsFreshChunks(strategy)
    ensures Applicable(strategy, NewChunk(p), noise)
  {
    Perlin2dStaysInChunk(NewChunk(p), noise);
    if strategy.SingleVoxels? {
      forall i | 0 <= i < |strategy.voxels| ensures strategy.voxels[i] in NewChunk(p).blocks {
        InLocalDomain(strategy.voxels[i]);
      }
    }
  }

  /** The square of chunk positions around `center`, x offset outer and z
      offset inner, both from -D to D. */
  function SquareAround(center: ChunkPos): seq<ChunkPos> {
    seq(SIDE * SIDE, i requires 0 <= i < SIDE * SIDE =>
      (center.0 + i / SIDE - CHUNK_LOAD_DISTANCE, center.1 + i % SIDE - CHUNK_LOAD_DISTANCE))
  }

  /** The square holds (2D+1)^2 distinct positions, exactly those within
      Chebyshev distance D of the center. */
  lemma SquareAroundExact(center: ChunkPos)
    ensures |SquareAround(center)| == SIDE * SIDE == 81
    ensures NoDuplicates(SquareAround(center))
    ensures forall p :: p in SquareAround(center) <==> WithinLoadDistance(center, p)
  {
    var r := SquareAround(center);
    forall p | WithinLoadDistance(center, p) ensures p in r {
      var i := (p.0 - center.0 + CHUNK_LOAD_DISTANCE) * SIDE + (p.1 - center.1 + CHUNK_LOAD_DISTANCE);
      assert r[i] == p;
    }
  }

  /** The candidates that are neither built nor queued, in their own order. */
  function Unrequested(candidates: seq<ChunkPos>, chunks: seq<Entry>, queue: seq<ChunkPos>): (r: seq<ChunkPos>)
    ensures forall p :: p in r <==> p in candidates && !IsBuilt(chunks, p) && p !in queue
    ensures NoDuplicates(candidates) ==> NoDuplicates(r)
  {
    if candidates == [] then []
    else
      var rest := Unrequested(candidates[1..], chunks, queue);
      if !IsBuilt(chunks, candidates[0]) && candidates[0] !in queue then [candidates[0]] + rest else rest
  }

  /** The first built chunk at `p`, as `iter_mut().find` returns it. */
  function FindChunk(chunks: seq<Entry>, p: ChunkPos): (r: Option<nat>)
    ensures r.Some? ==> r.value < |chunks| && chunks[r.value].0.position == p
                        && forall j :: 0 <= j < r.value ==> chunks[j].0.position != p
    ensures r.None? <==> !IsBuilt(chunks, p)
  {
    if chunks == [] then None
    else if chunks[0].0.position == p then Some(0)
    else match FindChunk(chunks[1..], p)
      case None => None
      case Some(j) => Some(j + 1)
  }

  /** One iteration of `build_next_chunks`: pop the newest queued position;
      if a chunk is built there mark it Loaded, otherwise build, generate and
      append a Loaded chunk. */
  function BuildOne(s: Streaming, strategy: ChunkGenStrategy, noise: NoiseField): Streaming {
    if s.chunkQueue == [] then s
    else
      var p := s.chunkQueue[|s.chunkQueue| - 1];
      var rest := s.chunkQueue[..|s.chunkQueue| - 1];
      match FindChunk(s.chunks, p)
      case Some(i) => s.(chunks := s.chunks[i := (s.chunks[i].0, Loaded)], chunkQueue := rest)
      case None => s.(chunks := s.chunks + [(Applied(strategy, NewChunk(p), noise), Loaded)], chunkQueue := rest)
  }

  /** The entry `BuildNext` puts at index `i` of the chunk list when it
      starts from `s`, from a valid state: the chunk generated at the
      `(i - |s.chunks|)`-th position from the end of the queue, Loaded. */
  function Built(s: Streaming, strategy: ChunkGenStrategy, noise: NoiseField, i: int): Entry
    requires |s.chunks| <= i < |s.chunks| + |s.chunkQueue|
  {
    (Applied(strategy, NewChunk(s.chunkQueue[|s.chunkQueue| + |s.chunks| - 1 - i]), noise), Loaded)
  }

  /** `n` iterations of `BuildOne`. */
  function BuildNext(s: Streaming, strategy: ChunkGenStrategy, noise: NoiseField, n: nat): Streaming
    decreases n
  {
    if n == 0 then s else BuildNext(BuildOne(s, strategy, noise), strategy, noise, n - 1)
  }

  /** Every chunk outside the load square of `center` becomes Unloaded. */
  function MarkDistant(chunks: seq<Entry>, center: ChunkPos): (r: seq<Entry>)
    ensures |r| == |chunks|
    ensures forall i :: 0 <= i < |r| ==> r[i].0 == chunks[i].0
    ensures forall i :: 0 <= i < |r| && !WithinLoadDistance(center, chunks[i].0.position) ==> r[i].1 == Unloaded
    ensures forall i :: 0 <= i < |r| && WithinLoadDistance(center, chunks[i].0.position) ==> r[i].1 == chunks[i].1
    ensures forall i :: 0 <= i < |r| && r[i].1 == Loaded ==> chunks[i].1 == Loaded
  {
    seq(|chunks|, i requires 0 <= i < |chunks| =>
      if WithinLoadDistance(center, chunks[i].0.position) then chunks[i] else (chunks[i].0, Unloaded))
  }

  /** One call of `update` with the player at world column (x, z). */
  function Tick(s: Streaming, strategy: ChunkGenStrategy, noise: NoiseField, x: int, z: int): Streaming {
    var b := BuildNext(s, strategy, noise, CHUNKS_TO_BUILT_PER_TICK);
    var current := WorldToChunkPosition(x, z);
    if current == b.currentChunk then b
    else
      var queue := b.chunkQueue + Unrequested(SquareAround(current), b.chunks, b.chunkQueue);
      Streaming(MarkDistant(b.chunks, current), current, queue)
  }

  /** From a valid state, `BuildOne` never finds the popped position built:
      it appends one Loaded chunk there, and the state stays valid. */
  lemma BuildOneValid(s: Streaming, strategy: ChunkGenStrategy, noise: NoiseField)
    requires ValidStreaming(s) && s.chunkQueue != []
    ensures var p := s.chunkQueue[|s.chunkQueue| - 1];
            BuildOne(s, strategy, noise).chunks == s.chunks + [(Applied(strategy, NewChunk(p), noise), Loaded)]
    ensures ValidStreaming(BuildOne(s, strategy, noise))
  {
    var q := s.chunkQueue;
    var p := q[|q| - 1];
    assert !IsBuilt(s.chunks, p);
    var r := BuildOne(s, strategy, noise);
    assert r.chunks[|s.chunks|].0.position == p;
    forall i | 0 <= i < |r.chunkQueue| ensures !IsBuilt(r.chunks, r.chunkQueue[i]) {
      var c := r.chunkQueue[i];
      assert c == q[i] && c != p;
      forall j | 0 <= j < |r.chunks| ensures r.chunks[j].0.position != c {
        if j < |s.chunks| {
          assert r.chunks[j] == s.chunks[j];
        }
      }
    }
  }

  /** A popped position that is already built is re-marked Loaded and no
      chunk is added; otherwise exactly one Loaded chunk is appended there. */
  lemma BuildOneCases(s: Streaming, strategy: ChunkGenStrategy, noise: NoiseField)
    requires s.chunkQueue != []
    ensures var p := s.chunkQueue[|s.chunkQueue| - 1];
            var r := BuildOne(s, strategy, noise);
            && r.chunkQueue == s.chunkQueue[..|s.chunkQueue| - 1]
            && (IsBuilt(s.chunks, p) ==>
                  |r.chunks| == |s.chunks|
                  && (forall i :: 0 <= i < |r.chunks| ==> r.chunks[i].0 == s.chunks[i].0)
                  && (forall i :: 0 <= i < |r.chunks| ==>
                        r.chunks[i].1 == if i == FindChunk(s.chunks, p).value then Loaded else s.chunks[i].1))
            && (!IsBuilt(s.chunks, p) ==>
                  r.chunks == s.chunks + [(Applied(strategy, NewChunk(p), noise), Loaded)])
  {
  }

  /** `BuildNext` pops at most `n` positions, newest first, and never removes
      or replaces a chunk. */
  lemma BuildNextShape(s: Streaming, strategy: ChunkGenStrategy, noise: NoiseField, n: nat)
    ensures var r := BuildNext(s, strategy, noise, n);
            && r.currentChunk == s.currentChunk
            && r.chunkQueue == s.chunkQueue[..|s.chunkQueue| - Min(n, |s.chunkQueue|)]
            && |s.chunks| <= |r.chunks| <= |s.chunks| + n
            && forall i :: 0 <= i < |s.chunks| ==> r.chunks[i].0 == s.chunks[i].0
  {
    BuildNextQueue(s, strategy, noise, n);
    BuildNextKeepsChunks(s, strategy, noise, n);
  }

  /** `BuildNext` keeps the current chunk and pops the newest `n` positions
      (all of them if there are fewer). */
  lemma {:induction false} BuildNextQueue(s: Streaming, strategy: ChunkGenStrategy, noise: NoiseField, n: nat)
    ensures var r := BuildNext(s, strategy, noise, n);
            && r.currentChunk == s.currentChunk
            && r.chunkQueue == s.chunkQueue[..|s.chunkQueue| - Min(n, |s.chunkQueue|)]
    decreases n
  {
    if n > 0 {
      var q := s.chunkQueue;
      var s1 := BuildOne(s, strategy, noise);
      BuildOneQueue(s, strategy, noise);
      BuildNextQueue(s1, strategy, noise, n - 1);
      if q != [] {
        PrefixOfPrefix(q, 1, Min(n, |q|) - 1);
      }
    }
  }

  /** `BuildNext` adds at most `n` chunks and never removes or moves one. */
  lemma {:induction false} BuildNextKeepsChunks(s: Streaming, strategy: ChunkGenStrategy, noise: NoiseField, n: nat)
    ensures var r := BuildNext(s, strategy, noise, n);
            && |s.chunks| <= |r.chunks| <= |s.chunks| + n
            && forall i :: 0 <= i < |s.chunks| ==> r.chunks[i].0 == s.chunks[i].0
    decreases n
  {
    if n > 0 {
      BuildOneChunks(s, strategy, noise);
      BuildNextKeepsChunks(BuildOne(s, strategy, noise), strategy, noise, n - 1);
    }
  }

  lemma PrefixOfPrefix<T>(q: seq<T>, a: nat, b: nat)
    requires a + b <= |q|
    ensures q[..|q| - a][..|q| - a - b] == q[..|q| - (a + b)]
  {
  }

  /** One `BuildOne` keeps the current chunk and pops the newest position. */
  lemma BuildOneQueue(s: Streaming, strategy: ChunkGenStrategy, noise: NoiseField)
    ensures var r := BuildOne(s, strategy, noise);
            && r.currentChunk == s.currentChunk
            && (s.chunkQueue == [] ==> r.chunkQueue == [])
            && (s.chunkQueue != [] ==> r.chunkQueue == s.chunkQueue[..|s.chunkQueue| - 1])
  {
  }

  /** One `BuildOne` adds at most one chunk and never removes or moves one. */
  lemma BuildOneChunks(s: Streaming, strategy: ChunkGenStrategy, noise: NoiseField)
    ensures var r := BuildOne(s, strategy, noise);
            && |s.chunks| <= |r.chunks| <= |s.chunks| + 1
            && forall i :: 0 <= i < |s.chunks| ==> r.chunks[i].0 == s.chunks[i].0
  {
    if s.chunkQueue != [] {
      BuildOneCases(s, strategy, noise);
    }
  }

  /** From a valid state `BuildNext` keeps the state valid, leaves every old
      entry as it was, and appends one Loaded chunk per popped position, in
      popping order. */
  lemma {:induction false} BuildNextValid(s: Streaming, strategy: ChunkGenStrategy, noise: NoiseField, n: nat)
    requires ValidStreaming(s)
    ensures var r := BuildNext(s, strategy, noise, n);
            && ValidStreaming(r)
            && |r.chunks| == |s.chunks| + Min(n, |s.chunkQueue|)
            && (forall i :: 0 <= i < |s.chunks| ==> r.chunks[i] == s.chunks[i])
            && (forall i :: |s.chunks| <= i < |r.chunks| ==> r.chunks[i] == Built(s, strategy, noise, i))
    decreases n
  {
    if n > 0 && s.chunkQueue == [] {
      BuildNextValid(s, strategy, noise, n - 1);
    } else if n > 0 {
      BuildOneValid(s, strategy, noise);
      var s1 := BuildOne(s, strategy, noise);
      BuildNextValid(s1, strategy, noise, n - 1);
      BuiltAfterBuildOne(s, strategy, noise);
    }
  }

  /** After one `BuildOne` from a valid state, the entries still to come are
      the ones that were to come after the popped position's. */
  lemma BuiltAfterBuildOne(s: Streaming, strategy: ChunkGenStrategy, noise: NoiseField)
    requires ValidStreaming(s) && s.chunkQueue != []
    ensures var s1 := BuildOne(s, strategy, noise);
            && |s1.chunks| == |s.chunks| + 1
            && s1.chunks[|s.chunks|] == Built(s, strategy, noise, |s.chunks|)
            && forall i :: |s1.chunks| <= i < |s1.chunks| + |s1.chunkQueue| ==>
                 Built(s1, strategy, noise, i) == Built(s, strategy, noise, i)
  {
    BuildOneValid(s, strategy, noise);
  }

  /** With the player still in the same chunk, `update` keeps the current
      chunk and enqueues nothing: the queue only loses its newest entries,
      at most `CHUNKS_TO_BUILT_PER_TICK` of them. */
  lemma TickSameChunk(s: Streaming, strategy: ChunkGenStrategy, noise: NoiseField, x: int, z: int)
    requires WorldToChunkPosition(x, z) == s.currentChunk
    ensures var r := Tick(s, strategy, noise, x, z);
            && r.currentChunk == s.currentChunk
            && r.chunkQueue == s.chunkQueue[..|s.chunkQueue| - Min(CHUNKS_TO_BUILT_PER_TICK, |s.chunkQueue|)]
  {
    BuildNextShape(s, strategy, noise, CHUNKS_TO_BUILT_PER_TICK);
  }

  /** A second `update` at the same player position enqueues nothing. */
  lemma TickTwiceEnqueuesNothing(s: Streaming, strategy: ChunkGenStrategy, noise: NoiseField, x: int, z: int)
    ensures var once := Tick(s, strategy, noise, x, z);
            var twice := Tick(once, strategy, noise, x, z);
            twice.currentChunk == once.currentChunk && |twice.chunkQueue| <= |once.chunkQueue|
  {
    BuildNextShape(s, strategy, noise, CHUNKS_TO_BUILT_PER_TICK);
    var once := Tick(s, strategy, noise, x, z);
    assert once.currentChunk == WorldToChunkPosition(x, z);
    TickSameChunk(once, strategy, noise, x, z);
  }

  /** Every call of `update`: the state stays valid, at most
      `CHUNKS_TO_BUILT_PER_TICK` chunks are built, no chunk is removed, and
      a chunk once Unloaded stays Unloaded, because its position can never
      be queued again. */
  lemma {:induction false} TickFacts(s: Streaming, strategy: ChunkGenStrategy, noise: NoiseField, x: int, z: int)
    requires ValidStreaming(s)
    ensures var r := Tick(s, strategy, noise, x, z);
            && ValidStreaming(r)
            && r.currentChunk == WorldToChunkPosition(x, z)
            && |s.chunks| <= |r.chunks| <= |s.chunks| + CHUNKS_TO_BUILT_PER_TICK
            && (forall i :: 0 <= i < |s.chunks| ==> r.chunks[i].0 == s.chunks[i].0)
            && (forall i :: 0 <= i < |s.chunks| && s.chunks[i].1 == Unloaded ==> r.chunks[i].1 == Unloaded)
            && (forall i :: 0 <= i < |r.chunkQueue| ==> !IsBuilt(r.chunks, r.chunkQueue[i]))
  {
    BuildNextShape(s, strategy, noise, CHUNKS_TO_BUILT_PER_TICK);
    BuildNextValid(s, strategy, noise, CHUNKS_TO_BUILT_PER_TICK);
    var b := BuildNext(s, strategy, noise, CHUNKS_TO_BUILT_PER_TICK);
    var current := WorldToChunkPosition(x, z);
    if current != b.currentChunk {
      EnqueueValid(b, current);
    }
  }

  /** Marking chunks Unloaded changes no built position. */
  lemma MarkDistantBuilt(chunks: seq<Entry>, center: ChunkPos, p: ChunkPos)
    ensures IsBuilt(MarkDistant(chunks, center), p) <==> IsBuilt(chunks, p)
  {
    var marked := MarkDistant(chunks, center);
    if IsBuilt(marked, p) {
      var i :| 0 <= i < |marked| && marked[i].0.position == p;
      assert chunks[i].0.position == p;
    }
    if IsBuilt(chunks, p) {
      var i :| 0 <= i < |chunks| && chunks[i].0.position == p;
      assert marked[i].0.position == p;
    }
  }

  /** Entering a new chunk keeps the state valid: the square's unrequested
      positions are neither built nor queued, and occur once. */
  lemma EnqueueValid(b: Streaming, current: ChunkPos)
    requires ValidStreaming(b)
    ensures ValidStreaming(Streaming(MarkDistant(b.chunks, current), current,
                                     b.chunkQueue + Unrequested(SquareAround(current), b.chunks, b.chunkQueue)))
  {
    var added := Unrequested(SquareAround(current), b.chunks, b.chunkQueue);
    SquareAroundExact(current);
    var queue := b.chunkQueue + added;
    var marked := MarkDistant(b.chunks, current);
    forall p ensures IsBuilt(marked, p) <==> IsBuilt(b.chunks, p) {
      MarkDistantBuilt(b.chunks, current, p);
    }
    assert NoDuplicates(queue) by {
      forall i, j | 0 <= i < j < |queue| ensures queue[i] != queue[j] {
        if j >= |b.chunkQueue| {
          assert queue[j] in added;
          if i < |b.chunkQueue| {
            assert queue[i] in b.chunkQueue;
          } else {
            assert queue[i] == added[i - |b.chunkQueue|];
            assert queue[j] == added[j - |b.chunkQueue|];
          }
        }
      }
    }
    forall i | 0 <= i < |queue| ensures !IsBuilt(marked, queue[i]) {
      if i >= |b.chunkQueue| {
        assert queue[i] in added;
      }
    }
  }

  class ChunkManager {
    /** Every built chunk with its state, in build order. */
    var chunks: seq<Entry>
    /** The chunk the player is in. */
    var currentChunk: ChunkPos
    const genStrategy: ChunkGenStrategy
    /** Positions still to build; the newest is built first. */
    var chunkQueue: seq<ChunkPos>
    /** The noise field the strategies sample. */
    const noise: NoiseField

    ghost function State(): Streaming
      reads this
    {
      Streaming(chunks, currentChunk, chunkQueue)
    }

    ghost predicate Valid()
      reads this
    {
      ValidStreaming(State())
    }

    /** A manager with nothing built or queued, in the chunk of the player's
        world column (playerX, playerZ). */
    constructor (genStrategy: ChunkGenStrategy, noise: NoiseField, playerX: int, playerZ: int)
      ensures Valid()
      ensures State() == Streaming([], WorldToChunkPosition(playerX, playerZ), [])
      ensures this.genStrategy == genStrategy && this.noise == noise
    {
      var chunkPos := WorldToChunkPosition(playerX, playerZ);
      this.chunks := [];
      this.currentChunk := chunkPos;
      this.genStrategy := genStrategy;
      this.chunkQueue := [];
      this.noise := noise;
    }

    /** Queues every position of the load square around the current chunk
        that is neither built, in any state, nor already queued. */
    method AddChunksToQueue()
      requires Valid()
      modifies this
      ensures Valid()
      ensures State() == old(State()).(chunkQueue :=
        old(chunkQueue) + Unrequested(SquareAround(currentChunk), chunks, old(chunkQueue)))
    {
      var around := GetChunksAround(currentChunk);
      var toLoad := Unrequested(around, chunks, chunkQueue);
      SquareAroundExact(currentChunk);
      ghost var queue0 := chunkQueue;
      for i := 0 to |toLoad|
        invariant chunks == old(chunks) && currentChunk == old(currentChunk)
        invariant chunkQueue == queue0 + toLoad[..i]
      {
        chunkQueue := chunkQueue + [toLoad[i]];
        assert toLoad[..i + 1] == toLoad[..i] + [toLoad[i]];
      }
      assert toLoad[..|toLoad|] == toLoad;
      assert NoDuplicates(chunkQueue) by {
        forall i, j | 0 <= i < j < |chunkQueue| ensures chunkQueue[i] != chunkQueue[j] {
          if j >= |queue0| {
            assert chunkQueue[j] == toLoad[j - |queue0|];
            if i < |queue0| {
              assert chunkQueue[i] in queue0;
            } else {
              assert chunkQueue[i] == toLoad[i - |queue0|];
            }
          }
        }
      }
      forall i | 0 <= i < |chunkQueue| ensures !IsBuilt(chunks, chunkQueue[i]) {
        if i >= |queue0| {
          assert chunkQueue[i] == toLoad[i - |queue0|];
        }
      }
    }

    /** Marks Unloaded every chunk outside the load square of the current chunk. */
    method UnloadDistantChunks()
      modifies this
      ensures State() == old(State()).(chunks := MarkDistant(old(chunks), currentChunk))
      ensures old(Valid()) ==> Valid()
    {
      var i := 0;
      while i < |chunks|
        invariant 0 <= i <= |chunks| == |old(chunks)|
        invariant currentChunk == old(currentChunk) && chunkQueue == old(chunkQueue)
        invariant forall j :: 0 <= j < |chunks| ==> chunks[j].0 == old(chunks)[j].0
        invariant chunks[..i] == MarkDistant(old(chunks), currentChunk)[..i]
        invariant chunks[i..] == old(chunks)[i..]
      {
        var (chunk, state) := chunks[i];
        var (cx, cz) := chunk.position;
        var (px, pz) := currentChunk;
        var dx := Abs(cx - px);
        var dz := Abs(cz - pz);
        if dx > CHUNK_LOAD_DISTANCE || dz > CHUNK_LOAD_DISTANCE {
          chunks := chunks[i := (chunk, Unloaded)];
        }
        assert chunks[i] == MarkDistant(old(chunks), currentChunk)[i];
        i := i + 1;
      }
      assert chunks == MarkDistant(old(chunks), currentChunk);
      if old(Valid()) {
        assert forall p :: IsBuilt(chunks, p) ==> IsBuilt(old(chunks), p) by {
          forall p | IsBuilt(chunks, p) ensures IsBuilt(old(chunks), p) {
            var j :| 0 <= j < |chunks| && chunks[j].0.position == p;
            assert old(chunks)[j].0.position == p;
          }
        }
      }
    }

    /** Building the newest queued position, when it is not built yet,
        generates a fresh chunk with the strategy, which panics unless every
        coordinate the strategy lists lies in the chunk. */
    ghost predicate NextBuildFits()
      reads this
    {
      chunkQueue != [] && !IsBuilt(chunks, chunkQueue[|chunkQueue| - 1]) ==> FitsFreshChunks(genStrategy)
    }

    /** Pops and handles at most `CHUNKS_TO_BUILT_PER_TICK` queued positions. */
    method BuildNextChunks()
      requires NextBuildFits()
      modifies this
      ensures State() == BuildNext(old(State()), genStrategy, noise, CHUNKS_TO_BUILT_PER_TICK)
    {
      for i := 0 to CHUNKS_TO_BUILT_PER_TICK
        invariant i == 0 ==> State() == old(State())
        invariant BuildNext(State(), genStrategy, noise, CHUNKS_TO_BUILT_PER_TICK - i)
                  == BuildNext(old(State()), genStrategy, noise, CHUNKS_TO_BUILT_PER_TICK)
      {
        if chunkQueue != [] {
          var p := chunkQueue[|chunkQueue| - 1];
          chunkQueue := chunkQueue[..|chunkQueue| - 1];
          var found := FindChunk(chunks, p);
          if found.Some? {
            var j := found.value;
            chunks := chunks[j := (chunks[j].0, Loaded)];
            continue;
          }
          FreshChunkApplicable(genStrategy, p, noise);
          var chunk := NewChunk(p);
          chunk := Apply(genStrategy, chunk, noise);
          chunks := chunks + [(chunk, Loaded)];
        }
      }
    }

    /** The positions of the load square around `chunkPos`. */
    method GetChunksAround(chunkPos: ChunkPos) returns (r: seq<ChunkPos>)
      ensures r == SquareAround(chunkPos)
    {
      r := [];
      var (cx, cz) := chunkPos;
      for x := -CHUNK_LOAD_DISTANCE to CHUNK_LOAD_DISTANCE + 1
        invariant |r| == (x + CHUNK_LOAD_DISTANCE) * SIDE
        invariant forall i :: 0 <= i < |r| ==> r[i] == SquareAround(chunkPos)[i]
      {
        for z := -CHUNK_LOAD_DISTANCE to CHUNK_LOAD_DISTANCE + 1
          invariant |r| == (x + CHUNK_LOAD_DISTANCE) * SIDE + (z + CHUNK_LOAD_DISTANCE)
          invariant forall i :: 0 <= i < |r| ==> r[i] == SquareAround(chunkPos)[i]
        {
          r := r + [(cx + x, cz + z)];
        }
      }
      assert |r| == SIDE * SIDE;
    }

    /** One tick: build queued chunks, then, if the player has moved to
        another chunk, queue the new square and unload the chunks left behind.
        In a valid state a queued position is never built, so the build pass
        builds a chunk whenever the queue is not empty. */
    method Update(playerX: int, playerZ: int)
      requires Valid() && (chunkQueue != [] ==> FitsFreshChunks(genStrategy))
      modifies this
      ensures Valid()
      ensures State() == Tick(old(State()), genStrategy, noise, playerX, playerZ)
    {
      BuildNextValid(State(), genStrategy, noise, CHUNKS_TO_BUILT_PER_TICK);
      BuildNextChunks();
      var current := WorldToChunkPosition(playerX, playerZ);
      if current != currentChunk {
        currentChunk := current;
        AddChunksToQueue();
        UnloadDistantChunks();
      }
    }
  }
}
