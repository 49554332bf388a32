/** Array of Structures: a buffer of `Particle` records, one record per
    particle with its seven fields side by side, worked on by free
    functions. */
module AoS {
  import opened ParticleModel

  /** A buffer of `size` copies of one record, as `vec![p; size]` builds. */
  method Filled(size: nat, p: Particle) returns (particles: array<Particle>)
    ensures fresh(particles)
    ensures particles[..] == seq(size, _ => p)
  {
    particles := new Particle[size](_ => p);
  }

  /** Moves every record by its own velocity times dt, in place; velocities
      and mass stay as they were. */
  method UpdatePositions(particles: array<Particle>, dt: real)
    modifies particles
    ensures particles[..] == StepAll(old(particles[..]), dt)
  {
    for i := 0 to particles.Length
      invariant forall k :: 0 <= k < i ==> particles[k] == Step(old(particles[k]), dt)
      invariant forall k :: i <= k < particles.Length ==> particles[k] == old(particles[k])
    {
      var p := particles[i];
      particles[i] := p.(x := p.x + p.vx * dt, y := p.y + p.vy * dt, z := p.z + p.vz * dt);
    }
  }

  /** The kinetic energy of the whole buffer, accumulated in index order. */
  method KineticEnergy(particles: array<Particle>) returns (total: real)
    ensures total == TotalEnergy(particles[..])
  {
    total := 0.0;
    for i := 0 to particles.Length
      invariant total == TotalEnergy(particles[..i])
    {
      var p := particles[i];
      var vSquared := p.vx * p.vx + p.vy * p.vy + p.vz * p.vz;
      total := total + 0.5 * p.mass * vSquared;
      assert particles[..i + 1] == particles[..i] + [p];
      TotalEnergySnoc(particles[..i], p);
    }
    assert particles[..particles.Length] == particles[..];
  }

  /** The sum of the x field, read by striding over whole records. */
  method SumX(particles: array<Particle>) returns (sum: real)
    ensures sum == XSum(particles[..])
  {
    sum := 0.0;
    for i := 0 to particles.Length
      invariant sum == XSum(particles[..i])
    {
      sum := sum + particles[i].x;
      assert particles[..i + 1] == particles[..i] + [particles[i]];
      XSumSnoc(particles[..i], particles[i]);
    }
    assert particles[..particles.Length] == particles[..];
  }
}
