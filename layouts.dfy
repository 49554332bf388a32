/** The three layouts side by side, set up as the benchmarks set them up and
    run through one call of each operation: whatever the particle count,
    they hold and compute the same values. */
module Layouts {
  import opened ParticleModel
  import opened Chunk
  import AoS
  import SoA
  import AoSoA

  /** After one position update, the AoS records, the SoA vectors and the
      used AoSoA slots give the same particles, index by index: each one at
      (dt, dt, dt) with its velocity and mass untouched. */
  method UpdateAcrossLayouts(size: nat, dt: real)
    returns (aos: seq<Particle>, soa: seq<Particle>, aosoa: seq<Particle>)
    ensures |aos| == size
    ensures aos == soa == aosoa
    ensures forall i :: 0 <= i < size ==> aos[i] == Particle(dt, dt, dt, 1.0, 1.0, 1.0, 1.0)
  {
    var records := AoS.Filled(size, INITIAL);
    AoS.UpdatePositions(records, dt);
    aos := records[..];

    var vectors := new SoA.ParticlesSoA(size);
    vectors.UpdatePositions(dt);
    soa := SoA.Zip(vectors.x, vectors.y, vectors.z, vectors.vx, vectors.vy, vectors.vz, vectors.mass);

    var chunked := new AoSoA.ParticlesAoSoA(size);
    chunked.UpdatePositions(dt);
    aosoa := Flatten(chunked.chunks);
  }

  /** The three kinetic-energy reductions agree on fresh collections, and
      each gives 1.5 per particle. */
  method EnergyAcrossLayouts(size: nat) returns (aos: real, soa: real, aosoa: real)
    ensures aos == soa == aosoa == 1.5 * size as real
  {
    var records := AoS.Filled(size, INITIAL);
    aos := AoS.KineticEnergy(records);

    var vectors := new SoA.ParticlesSoA(size);
    soa := vectors.KineticEnergy();

    var chunked := new AoSoA.ParticlesAoSoA(size);
    aosoa := chunked.KineticEnergy();

    InitialEnergy(size);
  }

  /** The x sums agree once every particle's x is 1: each is the particle
      count. For AoSoA only the used slots are set and summed, so 13
      particles in two chunks sum to 13, not 16. */
  method XSumAcrossLayouts(size: nat) returns (aos: real, soa: real, aosoa: real)
    ensures aos == soa == aosoa == size as real
  {
    var records := AoS.Filled(size, Particle(1.0, 2.0, 3.0, 1.0, 1.0, 1.0, 1.0));
    aos := AoS.SumX(records);
    XSumOfOnes(records[..]);

    var vectors := new SoA.ParticlesSoA(size);
    vectors.InitXToOne();
    soa := vectors.SumX();
    XSumOfOnes(vectors.View());

    var chunked := new AoSoA.ParticlesAoSoA(size);
    chunked.InitXToOne();
    aosoa := chunked.SumX();
    FlattenInitialChunks(size);
    FlattenOnesInUsedX(InitialChunks(size));
    XSumOfOnes(chunked.View());
  }
}
