# Particle layouts: AoS, SoA and AoSoA

This project models the particle containers of the structure-layout benchmark in
Dafny. The benchmark stores one collection of particles in three layouts. Each
particle has a position, a velocity and a mass. All three layouts offer the same
operations:

- **AoS** (array of structures): a buffer of `Particle` records. Free functions
  work on it (`AoS.UpdatePositions`, `AoS.KineticEnergy`, `AoS.SumX`).
- **SoA** (structure of arrays): the class `SoA.ParticlesSoA`. It holds seven
  field vectors that must always have the same length (`Valid()`, the lockstep
  invariant).
- **AoSoA** (array of structures of arrays): the class `AoSoA.ParticlesAoSoA`.
  It holds a list of `Chunk.ParticleChunk` values. Each chunk has seven lanes of
  `CHUNK_SIZE = 8` slots and a `count` of the slots in use.
  `(size + 7) / 8` chunks are built, and every chunk except the last is full.

Every layout has these operations, each verified against one specification
over the logical particle sequence:

- a position update: `x += vx * dt`, and the same for y and z;
- the kinetic-energy reduction, `Σ 0.5 * mass * (vx² + vy² + vz²)`;
- the x-coordinate sum.

The specification functions live in `ParticleModel`. SoA and AoSoA each have a
ghost `View()` that gives their particle sequence; for AoS the particle sequence
is the array's contents. For AoSoA the view is `Chunk.Flatten`: the used slots
of each chunk, in chunk order. Module `Layouts` builds the three
layouts the way the benchmarks do. It proves that after each operation the
three layouts agree for every particle count.

Modelling choices:

- Field values are exact `real`s, so the sums are exact.
- The benchmark's `SIZE` constant is a parameter.
- A chunk's `[f32; 8]` arrays are Rust values. They become the fixed-length
  sequence type `Chunk.Lane`.
- The in-place update through `&mut chunk` becomes a read, an update and a
  write-back of the chunk value. No aliasing is possible in either form.
- `SoA.ParticlesSoA.UpdatePositions` advances copies of the three position
  vectors and then assigns them to the fields. Sequence fields are values, so
  the final state is the same as updating each entry of the field.
- Each AoSoA operation's loop over the slots of one chunk is its own method
  (`MoveChunk`, `AddChunkEnergy`, `SetChunkXToOne`, `AddChunkXSum`). Every
  running total is passed through it, so the additions happen in the same
  order as in the nested loops.
- `ChunkCount` computes the chunk's remaining particles in a `nat`. The model
  therefore proves that `size - i * CHUNK_SIZE` never underflows.

The benchmark code has three features the model follows:

- The x sum and the x initialisation are inline loops in the benchmark
  closures; the model lifts them into `SumX` and `InitXToOne`.
- The AoS x-sum benchmark starts its records at position (1, 2, 3), not at the
  origin.
- The SoA and AoSoA x-sum benchmarks set x to 1 only after construction. For
  AoSoA this covers only the used slots.

## Model

| member | source | states |
|---|---|---|
| `ParticleModel.InitialEnergy` | tests/soa-aos/benches/soa_aos_bench.rs:68-77 | n freshly initialised particles (velocity 1, mass 1) have total kinetic energy 1.5 * n: 4.5 for three, 0 for none |
| `ParticleModel.XSumOfOnes` | tests/soa-aos/benches/soa_aos_bench.rs:238-244 | when every x is 1, the x sum equals the number of particles visited |
| `ParticleModel.StepPreservesEnergy` | tests/soa-aos/benches/soa_aos_bench.rs:60-66 | the position update leaves the kinetic energy unchanged, because it never writes velocity or mass |
| `ParticleModel.StepAllTwice` | tests/soa-aos/benches/soa_aos_bench.rs:60-66 | updating by dt1 and then by dt2 equals one update by dt1 + dt2, because velocities stay constant |
| `ParticleModel.StepTwice` | tests/soa-aos/benches/soa_aos_bench.rs:60-66 | for one particle, a step by dt1 followed by a step by dt2 is a single step by dt1 + dt2 |
| `ParticleModel.StepAllAppend` | tests/soa-aos/benches/soa_aos_bench.rs:104-112 | the update acts particle by particle, so updating the concatenation of two groups equals concatenating their updates (chunked and flat updates agree) |
| `ParticleModel.ThreeParticleScenario` | tests/soa-aos/benches/soa_aos_bench.rs:129-146 | three initial particles updated with dt = 0.016 all sit at (0.016, 0.016, 0.016) with unchanged velocity and mass; their energy is 4.5 |
| `AoS.Filled` | tests/soa-aos/benches/soa_aos_bench.rs:149-153 | the benchmark's record buffer holds `size` copies of the given record |
| `AoS.UpdatePositions` | tests/soa-aos/benches/soa_aos_bench.rs:129-135 | every record is replaced in place by its Euler step with the given dt: position plus velocity times dt; velocity and mass are kept; the length is unchanged |
| `AoS.KineticEnergy` | tests/soa-aos/benches/soa_aos_bench.rs:137-146 | returns the sum over all records, in index order, of 0.5 * mass * (vx² + vy² + vz²); reads only |
| `AoS.SumX` | tests/soa-aos/benches/soa_aos_bench.rs:226-230 | returns the sum of the x field over all records; reads only |
| `SoA.ParticlesSoA.constructor` | tests/soa-aos/benches/soa_aos_bench.rs:48-57 | all seven vectors have length `size`; positions are 0; velocities and mass are 1; the view is `size` initial particles |
| `SoA.ParticlesSoA.UpdatePositions` | tests/soa-aos/benches/soa_aos_bench.rs:60-66 | for every i < len, x[i], y[i] and z[i] advance by vx[i] * dt, vy[i] * dt and vz[i] * dt; the frame lets only x, y and z change; all lengths and the lockstep invariant are kept; the view is the updated view |
| `SoA.ParticlesSoA.KineticEnergy` | tests/soa-aos/benches/soa_aos_bench.rs:68-77 | returns the kinetic energy of the view, summed in index order; reads only |
| `SoA.ParticlesSoA.InitXToOne` | tests/soa-aos/benches/soa_aos_bench.rs:238-240 | x becomes all ones at the same length; no other vector may change |
| `SoA.ParticlesSoA.SumX` | tests/soa-aos/benches/soa_aos_bench.rs:244 | returns the sum of the x vector, which is the x sum of the view; reads only |
| `Chunk.ChunkCount` | tests/soa-aos/benches/soa_aos_bench.rs:85-87 | for every chunk i < num_chunks, `size - i*8` does not underflow and the count is between 1 and 8; every chunk but the last is full; the last holds exactly the rest (`i*8 + count == size`) |
| `Chunk.NumChunksIsCeiling` | tests/soa-aos/benches/soa_aos_bench.rs:82 | `(size + 7) / 8` is the ceiling of size / 8: the chunks hold every particle, no chunk is empty, and size 0 gives no chunks |
| `Chunk.CountsSumToSize` | tests/soa-aos/benches/soa_aos_bench.rs:85-97 | the counts of the chunks built for `size` particles sum to `size` |
| `Chunk.ThirteenParticles` | tests/soa-aos/benches/soa_aos_bench.rs:82-97 | 13 particles give 2 chunks with counts 8 and 5, 13 particles in all, fewer than the 16 slots |
| `Chunk.FlattenLength` | tests/soa-aos/benches/soa_aos_bench.rs:262-265 | the flattened view has exactly as many particles as the counts add up to (slots >= count are never part of it) |
| `Chunk.FlattenInitialChunks` | tests/soa-aos/benches/soa_aos_bench.rs:89-97 | the freshly built chunk list flattens to `size` initial particles, the same sequence as the SoA and AoS forms |
| `Chunk.StepChunkParticles` | tests/soa-aos/benches/soa_aos_bench.rs:106-110 | the update of one chunk moves exactly its used-slot particles by the common formula |
| `Chunk.StepChunkFrame` | tests/soa-aos/benches/soa_aos_bench.rs:104-112 | the chunk update moves slots < count by velocity times dt; slots >= count, the velocity and mass lanes and the count are unchanged |
| `Chunk.FlattenStepChunks` | tests/soa-aos/benches/soa_aos_bench.rs:104-112 | updating chunk by chunk equals updating the flattened sequence, so the AoSoA update agrees with the SoA and AoS updates |
| `Chunk.FlattenOnesInUsedX` | tests/soa-aos/benches/soa_aos_bench.rs:253-257 | after x is set to 1 in the used slots, the flattened view has the same length and the same particles, with x = 1 |
| `AoSoA.MoveChunk` | tests/soa-aos/benches/soa_aos_bench.rs:106-110 | the slot loop over one chunk returns exactly its chunk update: slots < count move by velocity times dt, everything else is kept |
| `AoSoA.AddChunkEnergy` | tests/soa-aos/benches/soa_aos_bench.rs:117-122 | the slot loop adds exactly the kinetic energy of the chunk's used-slot particles to the running total |
| `AoSoA.SetChunkXToOne` | tests/soa-aos/benches/soa_aos_bench.rs:254-256 | the slot loop returns the chunk with x = 1 in slots < count and every other slot and lane unchanged |
| `AoSoA.AddChunkXSum` | tests/soa-aos/benches/soa_aos_bench.rs:262-264 | the slot loop adds exactly the x sum of the chunk's used-slot particles to the running sum |
| `AoSoA.ParticlesAoSoA.constructor` | tests/soa-aos/benches/soa_aos_bench.rs:81-102 | builds exactly `(size + 7) / 8` chunks; chunk i counts `min(size - i*8, 8)`; the view is `size` initial particles |
| `AoSoA.ParticlesAoSoA.UpdatePositions` | tests/soa-aos/benches/soa_aos_bench.rs:104-112 | every chunk becomes its chunk update (only slots < count move); the number of chunks and the counts are kept; the view is the updated view |
| `AoSoA.ParticlesAoSoA.KineticEnergy` | tests/soa-aos/benches/soa_aos_bench.rs:114-125 | returns the kinetic energy of the used slots only, accumulated in chunk order, equal to the energy of the view; reads only |
| `AoSoA.ParticlesAoSoA.InitXToOne` | tests/soa-aos/benches/soa_aos_bench.rs:253-257 | x becomes 1 in every slot < count; every other slot and lane and every count are unchanged |
| `AoSoA.ParticlesAoSoA.SumX` | tests/soa-aos/benches/soa_aos_bench.rs:259-267 | returns the x sum over the used slots only, which is the x sum of the view: one value per particle, never one per slot |
| `Layouts.UpdateAcrossLayouts` | tests/soa-aos/benches/soa_aos_bench.rs:148-180 | after one update of fresh collections, AoS, SoA and flattened AoSoA give equal particle sequences of length `size`, each particle at (dt, dt, dt) |
| `Layouts.EnergyAcrossLayouts` | tests/soa-aos/benches/soa_aos_bench.rs:182-214 | the three energy reductions on fresh collections are equal, at 1.5 * size |
| `Layouts.XSumAcrossLayouts` | tests/soa-aos/benches/soa_aos_bench.rs:217-270 | the three x sums, after each benchmark's x initialisation, are equal to `size` (13, not 16, for 13 particles) |

## Left out

- `f32` arithmetic: values are exact reals. Rounding, and the dependence of a float sum on its order, are not modelled. Nothing is claimed at the bit level.
- `usize` width: `size + CHUNK_SIZE - 1` could overflow for a size near the top of the `usize` range. The model uses unbounded `nat` and does not capture that overflow.
- The benchmark harness is not modelled: `criterion`, `bench_function`, `b.iter`, `black_box`, `criterion_group!` and `criterion_main!`. The `Layouts` methods model only each benchmark's setup and one call of its timed body. Repeated timed calls and the resulting position drift are not modelled.
- `Vec::with_capacity` is not modelled, because reserving capacity has no observable effect here.
- Chunk arrays are modelled as values. The `[f32; 8]` lanes are fixed-length sequences, and the in-place update through `&mut` is a value write-back. No aliasing is possible in the source either.
- The read-only operations are methods with no `modifies` clause. Repeated calls therefore see the same state, and no separate idempotence statement is made.
- tests/pipeline-pattern/main.go is not part of this model. Its whole content is goroutines, channels and a wait group.
