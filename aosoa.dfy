/** Array of Structures of Arrays: a list of fixed-capacity chunks, each an
    SoA block of CHUNK_SIZE slots with a count of the slots in use. */
module AoSoA {
  import opened ParticleModel
  import opened Chunk

  /** The inner loop of the position update: moves every used slot of one
      chunk by its velocity times dt and gives back the updated chunk. */
  method MoveChunk(original: ParticleChunk, dt: real) returns (chunk: ParticleChunk)
    requires original.count <= CHUNK_SIZE
    ensures chunk == StepChunk(original, dt)
  {
    chunk := original;
    for i := 0 to chunk.count
      invariant chunk.vx == original.vx && chunk.vy == original.vy && chunk.vz == original.vz
      invariant chunk.mass == original.mass && chunk.count == original.count
      invariant forall k :: 0 <= k < CHUNK_SIZE ==>
        chunk.x[k] == (if k < i then original.x[k] + original.vx[k] * dt else original.x[k])
      invariant forall k :: 0 <= k < CHUNK_SIZE ==>
        chunk.y[k] == (if k < i then original.y[k] + original.vy[k] * dt else original.y[k])
      invariant forall k :: 0 <= k < CHUNK_SIZE ==>
        chunk.z[k] == (if k < i then original.z[k] + original.vz[k] * dt else original.z[k])
    {
      chunk := chunk.(x := chunk.x[i := chunk.x[i] + chunk.vx[i] * dt],
                      y := chunk.y[i := chunk.y[i] + chunk.vy[i] * dt],
                      z := chunk.z[i := chunk.z[i] + chunk.vz[i] * dt]);
    }
    SteppedChunk(original, chunk, dt);
  }

  /** The inner loop of the x initialisation: sets x to 1 in the used slots
      of one chunk and gives back the updated chunk. */
  method SetChunkXToOne(original: ParticleChunk) returns (chunk: ParticleChunk)
    requires original.count <= CHUNK_SIZE
    ensures chunk == OnesInUsedX(original)
  {
    chunk := original;
    for i := 0 to chunk.count
      invariant chunk.(x := original.x) == original
      invariant forall k :: 0 <= k < CHUNK_SIZE ==>
        chunk.x[k] == (if k < i then 1.0 else original.x[k])
    {
      chunk := chunk.(x := chunk.x[i := 1.0]);
    }
    assert chunk == OnesInUsedX(original);
  }

  /** The inner loop of the energy reduction: adds the kinetic energy of
      one chunk's used slots, in slot order, to a running total. */
  method AddChunkEnergy(chunk: ParticleChunk, total: real) returns (sum: real)
    requires chunk.count <= CHUNK_SIZE
    ensures sum == total + TotalEnergy(ChunkParticles(chunk))
  {
    sum := total;
    ghost var slots := ChunkParticles(chunk);
    assert slots[..0] == [];
    for i := 0 to chunk.count
      invariant sum == total + TotalEnergy(slots[..i])
    {
      var vSquared := chunk.vx[i] * chunk.vx[i] + chunk.vy[i] * chunk.vy[i] + chunk.vz[i] * chunk.vz[i];
      sum := sum + 0.5 * chunk.mass[i] * vSquared;
      SlotEnergy(chunk, i);
      TotalEnergyPrefix(slots, i);
    }
    assert slots[..chunk.count] == slots;
  }

  /** The inner loop of the x sum: adds the x of one chunk's used slots, in
      slot order, to a running sum; the unused slots are never read. */
  method AddChunkXSum(chunk: ParticleChunk, sum: real) returns (result: real)
    requires chunk.count <= CHUNK_SIZE
    ensures result == sum + XSum(ChunkParticles(chunk))
  {
    result := sum;
    ghost var slots := ChunkParticles(chunk);
    assert slots[..0] == [];
    for i := 0 to chunk.count
      invariant result == sum + XSum(slots[..i])
    {
      result := result + chunk.x[i];
      assert slots[i].x == chunk.x[i];
      XSumPrefix(slots, i);
    }
    assert slots[..chunk.count] == slots;
  }

  class ParticlesAoSoA {
    var chunks: seq<ParticleChunk>

    /** The particle count the collection was built for. */
    ghost const size: nat

    /** The chunk structure the constructor establishes and every operation
        keeps: ceil(size / CHUNK_SIZE) chunks, all full but possibly the last. */
    ghost predicate Valid()
      reads this
    {
      && |chunks| == NumChunks(size)
      && forall c :: 0 <= c < |chunks| ==> chunks[c].count == ChunkCount(size, c)
    }

    /** The particle sequence this collection stands for: the used slots of
        each chunk, in chunk order. */
    ghost function View(): seq<Particle>
      reads this
      requires Valid()
    {
      Flatten(chunks)
    }

    /** Pushes ceil(size / CHUNK_SIZE) chunks; chunk i counts the particles
        that remain after the i chunks before it, at most CHUNK_SIZE. */
    constructor (size: nat)
      ensures Valid() && this.size == size
      ensures |chunks| == (size + CHUNK_SIZE - 1) / CHUNK_SIZE
      ensures chunks == InitialChunks(size)
      ensures |View()| == size
      ensures View() == InitialParticles(size)
    {
      var numChunks := (size + CHUNK_SIZE - 1) / CHUNK_SIZE;
      var cs: seq<ParticleChunk> := [];
      for i := 0 to numChunks
        invariant cs == InitialChunks(size)[..i]
      {
        var remaining: nat := size - i * CHUNK_SIZE;
        var chunkCount := if remaining < CHUNK_SIZE then remaining else CHUNK_SIZE;
        cs := cs + [ParticleChunk(Lanes(0.0), Lanes(0.0), Lanes(0.0),
                                  Lanes(1.0), Lanes(1.0), Lanes(1.0), Lanes(1.0), chunkCount)];
      }
      this.size := size;
      chunks := cs;
      FlattenInitialChunks(size);
    }

    /** Advances the position of every used slot of every chunk by its
        velocity times dt; nothing else changes. */
    method UpdatePositions(dt: real)
      requires Valid()
      modifies this
      ensures Valid()
      ensures chunks == StepChunks(old(chunks), dt)
      ensures View() == StepAll(old(View()), dt)
    {
      for c := 0 to |chunks|
        invariant |chunks| == |old(chunks)|
        invariant forall j :: 0 <= j < c ==> chunks[j] == StepChunk(old(chunks[j]), dt)
        invariant forall j :: c <= j < |chunks| ==> chunks[j] == old(chunks[j])
      {
        var chunk := MoveChunk(chunks[c], dt);
        chunks := chunks[c := chunk];
      }
      assert chunks == StepChunks(old(chunks), dt);
      FlattenStepChunks(old(chunks), dt);
    }

    /** The kinetic energy of the used slots of every chunk, accumulated in
        chunk order and slot order into one running total. */
    method KineticEnergy() returns (total: real)
      requires Valid()
      ensures total == TotalEnergy(View())
    {
      total := 0.0;
      assert WellFormed(chunks);
      for c := 0 to |chunks|
        invariant total == TotalEnergy(Flatten(chunks[..c]))
      {
        total := AddChunkEnergy(chunks[c], total);
        FlattenPrefixEnergy(chunks, c);
      }
      assert chunks[..|chunks|] == chunks;
    }

    /** Sets x to 1 in the used slots only; unused slots keep their value. */
    method InitXToOne()
      requires Valid()
      modifies this
      ensures Valid()
      ensures chunks == OnesInUsedXAll(old(chunks))
    {
      for c := 0 to |chunks|
        invariant |chunks| == |old(chunks)|
        invariant forall j :: 0 <= j < c ==> chunks[j] == OnesInUsedX(old(chunks[j]))
        invariant forall j :: c <= j < |chunks| ==> chunks[j] == old(chunks[j])
      {
        var chunk := SetChunkXToOne(chunks[c]);
        chunks := chunks[c := chunk];
      }
      assert chunks == OnesInUsedXAll(old(chunks));
    }

    /** The sum of x over the used slots of every chunk: exactly one value
        per particle, never one per slot. */
    method SumX() returns (sum: real)
      requires Valid()
      ensures sum == XSum(View())
    {
      sum := 0.0;
      assert WellFormed(chunks);
      for c := 0 to |chunks|
        invariant sum == XSum(Flatten(chunks[..c]))
      {
        sum := AddChunkXSum(chunks[c], sum);
        FlattenPrefixXSum(chunks, c);
      }
      assert chunks[..|chunks|] == chunks;
    }
  }
}
