/** The fixed-capacity chunk of the AoSoA layout, the arithmetic that splits
    a particle count into chunks, and the flattened view of a chunk list. */
module Chunk {
  import opened ParticleModel

  /** Slots per chunk (one vector register of eight single floats). */
  const CHUNK_SIZE: nat := 8

  /** A fixed-size per-field array of a chunk, `[f32; CHUNK_SIZE]`. */
  type Lane = s: seq<real> | |s| == CHUNK_SIZE witness seq(CHUNK_SIZE, _ => 0.0)

  /** Seven field lanes and the number of slots that hold particles. Slots at
      or beyond `count` are initialised but never part of the collection. */
  datatype ParticleChunk = ParticleChunk(
    x: Lane, y: Lane, z: Lane, vx: Lane, vy: Lane, vz: Lane, mass: Lane, count: nat)

  /** The number of chunks for `size` particles, `(size + CHUNK_SIZE - 1) / CHUNK_SIZE`. */
  function NumChunks(size: nat): nat {
    (size + CHUNK_SIZE - 1) / CHUNK_SIZE
  }

  /** The valid-slot count of chunk i: what remains after the chunks before
      it, capped at the capacity. The subtraction is checked not to go
      below zero. */
  function ChunkCount(size: nat, i: nat): (count: nat)
    requires i < NumChunks(size)
    ensures 1 <= count <= CHUNK_SIZE
    ensures i < NumChunks(size) - 1 ==> count == CHUNK_SIZE
    ensures i == NumChunks(size) - 1 ==> i * CHUNK_SIZE + count == size
  {
    var remaining: nat := size - i * CHUNK_SIZE;
    if remaining < CHUNK_SIZE then remaining else CHUNK_SIZE
  }

  /** NumChunks is the ceiling of size / CHUNK_SIZE: enough chunks to hold
      every particle, and no chunk left empty. */
  lemma NumChunksIsCeiling(size: nat)
    ensures NumChunks(size) * CHUNK_SIZE >= size
    ensures NumChunks(size) * CHUNK_SIZE < size + CHUNK_SIZE
    ensures NumChunks(size) == 0 <==> size == 0
  {
  }

  function Lanes(v: real): Lane {
    seq(CHUNK_SIZE, _ => v)
  }

  /** A chunk as the AoSoA constructor pushes it: every slot, used or not,
      holds the initial particle. */
  function NewChunk(count: nat): ParticleChunk {
    ParticleChunk(Lanes(0.0), Lanes(0.0), Lanes(0.0), Lanes(1.0), Lanes(1.0), Lanes(1.0), Lanes(1.0), count)
  }

  /** The chunk list the AoSoA constructor builds for `size` particles. */
  function InitialChunks(size: nat): seq<ParticleChunk> {
    seq(NumChunks(size), i requires 0 <= i < NumChunks(size) => NewChunk(ChunkCount(size, i)))
  }

  /** Every chunk's count is within its capacity. */
  ghost predicate WellFormed(chunks: seq<ParticleChunk>) {
    forall i :: 0 <= i < |chunks| ==> chunks[i].count <= CHUNK_SIZE
  }

  /** The particles of one chunk: its first `count` slots, in slot order. */
  function ChunkParticles(c: ParticleChunk): seq<Particle>
    requires c.count <= CHUNK_SIZE
  {
    seq(c.count, i requires 0 <= i < c.count =>
      Particle(c.x[i], c.y[i], c.z[i], c.vx[i], c.vy[i], c.vz[i], c.mass[i]))
  }

  /** The energy term of a used slot, read straight from the chunk's lanes. */
  lemma SlotEnergy(c: ParticleChunk, i: nat)
    requires i < c.count <= CHUNK_SIZE
    ensures Energy(ChunkParticles(c)[i]) ==
      0.5 * c.mass[i] * (c.vx[i] * c.vx[i] + c.vy[i] * c.vy[i] + c.vz[i] * c.vz[i])
  {
    assert ChunkParticles(c)[i] == Particle(c.x[i], c.y[i], c.z[i], c.vx[i], c.vy[i], c.vz[i], c.mass[i]);
  }

  /** The particles of a chunk list: each chunk's used slots, in chunk order. */
  function Flatten(chunks: seq<ParticleChunk>): seq<Particle>
    requires WellFormed(chunks)
  {
    if chunks == [] then []
    else Flatten(chunks[..|chunks| - 1]) + ChunkParticles(chunks[|chunks| - 1])
  }

  /** Extending a chunk prefix by one chunk appends that chunk's particles. */
  lemma FlattenPrefixSnoc(chunks: seq<ParticleChunk>, c: nat)
    requires WellFormed(chunks) && c < |chunks|
    ensures WellFormed(chunks[..c]) && WellFormed(chunks[..c + 1])
    ensures Flatten(chunks[..c + 1]) == Flatten(chunks[..c]) + ChunkParticles(chunks[c])
  {
    assert chunks[..c + 1][..c] == chunks[..c];
  }

  /** The energy of the first c + 1 chunks' particles adds chunk c's own
      energy to that of the first c. */
  lemma FlattenPrefixEnergy(chunks: seq<ParticleChunk>, c: nat)
    requires WellFormed(chunks) && c < |chunks|
    ensures WellFormed(chunks[..c]) && WellFormed(chunks[..c + 1])
    ensures TotalEnergy(Flatten(chunks[..c + 1])) ==
      TotalEnergy(Flatten(chunks[..c])) + TotalEnergy(ChunkParticles(chunks[c]))
  {
    FlattenPrefixSnoc(chunks, c);
    TotalEnergyAppend(Flatten(chunks[..c]), ChunkParticles(chunks[c]));
  }

  /** The x sum of the first c + 1 chunks' particles adds chunk c's own
      x sum to that of the first c. */
  lemma FlattenPrefixXSum(chunks: seq<ParticleChunk>, c: nat)
    requires WellFormed(chunks) && c < |chunks|
    ensures WellFormed(chunks[..c]) && WellFormed(chunks[..c + 1])
    ensures XSum(Flatten(chunks[..c + 1])) ==
      XSum(Flatten(chunks[..c])) + XSum(ChunkParticles(chunks[c]))
  {
    FlattenPrefixSnoc(chunks, c);
    XSumAppend(Flatten(chunks[..c]), ChunkParticles(chunks[c]));
  }

  /** The total of the valid-slot counts. */
  function TotalCount(chunks: seq<ParticleChunk>): nat {
    if chunks == [] then 0 else TotalCount(chunks[..|chunks| - 1]) + chunks[|chunks| - 1].count
  }

  /** The flattened view holds exactly the counted slots and no others. */
  lemma {:induction false} FlattenLength(chunks: seq<ParticleChunk>)
    requires WellFormed(chunks)
    ensures |Flatten(chunks)| == TotalCount(chunks)
  {
    if chunks != [] {
      FlattenLength(chunks[..|chunks| - 1]);
    }
  }

  /** The first k chunks of a fresh list count min(k * CHUNK_SIZE, size)
      particles; all of them count exactly `size`. */
  lemma {:induction false} InitialCountsPrefix(size: nat, k: nat)
    requires k <= NumChunks(size)
    ensures TotalCount(InitialChunks(size)[..k]) == if k < NumChunks(size) then k * CHUNK_SIZE else size
  {
    if k > 0 {
      var cs := InitialChunks(size);
      assert cs[..k][..k - 1] == cs[..k - 1];
      InitialCountsPrefix(size, k - 1);
    }
  }

  /** The counts of a fresh chunk list sum to the particle count. */
  lemma CountsSumToSize(size: nat)
    ensures TotalCount(InitialChunks(size)) == size
  {
    InitialCountsPrefix(size, NumChunks(size));
    assert InitialChunks(size)[..NumChunks(size)] == InitialChunks(size);
  }

  /** Thirteen particles need two chunks, counting eight and five. */
  lemma ThirteenParticles()
    ensures NumChunks(13) == 2
    ensures ChunkCount(13, 0) == 8 && ChunkCount(13, 1) == 5
    ensures TotalCount(InitialChunks(13)) == 13 < NumChunks(13) * CHUNK_SIZE
  {
  }

  /** A fresh chunk list flattens to `size` initial particles: the AoSoA
      form holds the same particles as the SoA and AoS forms. */
  lemma {:induction false} FlattenInitialChunks(size: nat)
    ensures WellFormed(InitialChunks(size))
    ensures Flatten(InitialChunks(size)) == InitialParticles(size)
  {
    var cs := InitialChunks(size);
    var k := 0;
    while k < |cs|
      invariant 0 <= k <= |cs|
      invariant Flatten(cs[..k]) == InitialParticles(TotalCount(cs[..k]))
    {
      assert cs[..k + 1][..k] == cs[..k];
      assert ChunkParticles(cs[k]) == InitialParticles(cs[k].count);
      k := k + 1;
    }
    CountsSumToSize(size);
    assert cs[..|cs|] == cs;
  }

  /** The position update of one chunk: slots below `count` move, every
      other slot and every velocity and mass lane stay as they were. */
  function StepChunk(c: ParticleChunk, dt: real): ParticleChunk
    requires c.count <= CHUNK_SIZE
  {
    c.(x := seq(CHUNK_SIZE, i requires 0 <= i < CHUNK_SIZE => if i < c.count then c.x[i] + c.vx[i] * dt else c.x[i]),
       y := seq(CHUNK_SIZE, i requires 0 <= i < CHUNK_SIZE => if i < c.count then c.y[i] + c.vy[i] * dt else c.y[i]),
       z := seq(CHUNK_SIZE, i requires 0 <= i < CHUNK_SIZE => if i < c.count then c.z[i] + c.vz[i] * dt else c.z[i]))
  }

  /** The update moves the particle of used slot i by the common step. */
  lemma StepSlot(c: ParticleChunk, dt: real, i: nat)
    requires i < c.count <= CHUNK_SIZE
    ensures ChunkParticles(StepChunk(c, dt))[i] == Step(ChunkParticles(c)[i], dt)
  {
    var moved := StepChunk(c, dt);
    assert moved.x[i] == c.x[i] + c.vx[i] * dt;
    assert moved.y[i] == c.y[i] + c.vy[i] * dt;
    assert moved.z[i] == c.z[i] + c.vz[i] * dt;
    assert ChunkParticles(moved)[i] ==
      Particle(moved.x[i], moved.y[i], moved.z[i], c.vx[i], c.vy[i], c.vz[i], c.mass[i]);
  }

  /** A chunk whose used slots have each moved by velocity times dt, with
      everything else as in `original`, is the chunk update of `original`. */
  lemma SteppedChunk(original: ParticleChunk, chunk: ParticleChunk, dt: real)
    requires original.count <= CHUNK_SIZE
    requires chunk.vx == original.vx && chunk.vy == original.vy && chunk.vz == original.vz
    requires chunk.mass == original.mass && chunk.count == original.count
    requires forall k :: 0 <= k < CHUNK_SIZE ==>
      chunk.x[k] == (if k < original.count then original.x[k] + original.vx[k] * dt else original.x[k])
    requires forall k :: 0 <= k < CHUNK_SIZE ==>
      chunk.y[k] == (if k < original.count then original.y[k] + original.vy[k] * dt else original.y[k])
    requires forall k :: 0 <= k < CHUNK_SIZE ==>
      chunk.z[k] == (if k < original.count then original.z[k] + original.vz[k] * dt else original.z[k])
    ensures chunk == StepChunk(original, dt)
  {
    var stepped := StepChunk(original, dt);
    assert forall k :: 0 <= k < CHUNK_SIZE ==>
      chunk.x[k] == stepped.x[k] && chunk.y[k] == stepped.y[k] && chunk.z[k] == stepped.z[k];
    assert chunk.x == stepped.x && chunk.y == stepped.y && chunk.z == stepped.z;
  }

  /** Within one chunk, the update moves exactly the used slots' particles. */
  lemma StepChunkParticles(c: ParticleChunk, dt: real)
    requires c.count <= CHUNK_SIZE
    ensures ChunkParticles(StepChunk(c, dt)) == StepAll(ChunkParticles(c), dt)
  {
    forall i | 0 <= i < c.count
      ensures ChunkParticles(StepChunk(c, dt))[i] == StepAll(ChunkParticles(c), dt)[i]
    {
      StepSlot(c, dt, i);
    }
  }


  function StepChunks(chunks: seq<ParticleChunk>, dt: real): seq<ParticleChunk>
    requires WellFormed(chunks)
  {
    seq(|chunks|, i requires 0 <= i < |chunks| => StepChunk(chunks[i], dt))
  }

  /** Updating chunk by chunk moves exactly the flattened particles, each by
      the same formula the other layouts use. */
  lemma {:induction false} FlattenStepChunks(chunks: seq<ParticleChunk>, dt: real)
    requires WellFormed(chunks)
    ensures WellFormed(StepChunks(chunks, dt))
    ensures Flatten(StepChunks(chunks, dt)) == StepAll(Flatten(chunks), dt)
  {
    if chunks != [] {
      var n := |chunks|;
      var c := chunks[n - 1];
      assert StepChunks(chunks, dt)[..n - 1] == StepChunks(chunks[..n - 1], dt);
      FlattenStepChunks(chunks[..n - 1], dt);
      StepChunkParticles(c, dt);
      StepAllAppend(Flatten(chunks[..n - 1]), ChunkParticles(c), dt);
    }
  }

  /** What the update does to one chunk: used slots move by the Euler step;
      unused slots, the velocity and mass lanes and the count are untouched. */
  lemma StepChunkFrame(c: ParticleChunk, dt: real)
    requires c.count <= CHUNK_SIZE
    ensures StepChunk(c, dt).count == c.count
    ensures StepChunk(c, dt).vx == c.vx && StepChunk(c, dt).vy == c.vy
    ensures StepChunk(c, dt).vz == c.vz && StepChunk(c, dt).mass == c.mass
    ensures forall i :: 0 <= i < c.count ==>
      StepChunk(c, dt).x[i] == c.x[i] + c.vx[i] * dt &&
      StepChunk(c, dt).y[i] == c.y[i] + c.vy[i] * dt &&
      StepChunk(c, dt).z[i] == c.z[i] + c.vz[i] * dt
    ensures forall i :: c.count <= i < CHUNK_SIZE ==>
      StepChunk(c, dt).x[i] == c.x[i] && StepChunk(c, dt).y[i] == c.y[i] && StepChunk(c, dt).z[i] == c.z[i]
  {
  }

  /** Sets x to 1 in the used slots of a chunk only. */
  function OnesInUsedX(c: ParticleChunk): ParticleChunk
    requires c.count <= CHUNK_SIZE
  {
    c.(x := seq(CHUNK_SIZE, i requires 0 <= i < CHUNK_SIZE => if i < c.count then 1.0 else c.x[i]))
  }

  function OnesInUsedXAll(chunks: seq<ParticleChunk>): seq<ParticleChunk>
    requires WellFormed(chunks)
  {
    seq(|chunks|, i requires 0 <= i < |chunks| => OnesInUsedX(chunks[i]))
  }

  /** After x is set to 1 in the used slots, the flattened particles are the
      same particles with x = 1, and no more of them. */
  lemma {:induction false} FlattenOnesInUsedX(chunks: seq<ParticleChunk>)
    requires WellFormed(chunks)
    ensures WellFormed(OnesInUsedXAll(chunks))
    ensures |Flatten(OnesInUsedXAll(chunks))| == |Flatten(chunks)|
    ensures forall i :: 0 <= i < |Flatten(chunks)| ==>
      Flatten(OnesInUsedXAll(chunks))[i] == Flatten(chunks)[i].(x := 1.0)
  {
    if chunks != [] {
      var n := |chunks|;
      assert OnesInUsedXAll(chunks)[..n - 1] == OnesInUsedXAll(chunks[..n - 1]);
      FlattenOnesInUsedX(chunks[..n - 1]);
    }
  }
}
