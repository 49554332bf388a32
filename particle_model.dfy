/** The particle record and the specification functions shared by the three
    layouts (AoS, SoA, AoSoA). Field values are exact reals: the source's
    `f32` rounding is not modelled, so sums do not depend on their order. */
module ParticleModel {

  /** One logical particle: position, velocity and mass. This is also the
      AoS record `ParticleAoS`, which is a plain `Copy` value. */
  datatype Particle = Particle(x: real, y: real, z: real, vx: real, vy: real, vz: real, mass: real)

  /** The state every constructor gives each particle: at the origin, with
      unit velocity on every axis and unit mass. */
  const INITIAL: Particle := Particle(0.0, 0.0, 0.0, 1.0, 1.0, 1.0, 1.0)

  /** The logical particle sequence of a freshly constructed collection. */
  function InitialParticles(n: nat): seq<Particle> {
    seq(n, _ => INITIAL)
  }

  /** The explicit Euler step applied to one particle by every layout. */
  function Step(p: Particle, dt: real): Particle {
    p.(x := p.x + p.vx * dt, y := p.y + p.vy * dt, z := p.z + p.vz * dt)
  }

  /** The position update applied to every particle of a sequence. */
  function StepAll(ps: seq<Particle>, dt: real): seq<Particle> {
    seq(|ps|, i requires 0 <= i < |ps| => Step(ps[i], dt))
  }

  /** Kinetic energy of one particle: 0.5 * mass * |v|^2. */
  function Energy(p: Particle): real {
    0.5 * p.mass * (p.vx * p.vx + p.vy * p.vy + p.vz * p.vz)
  }

  /** Sum in index order, the value a running total accumulates. */
  function Sum(s: seq<real>): real {
    if s == [] then 0.0 else Sum(s[..|s| - 1]) + s[|s| - 1]
  }

  function Energies(ps: seq<Particle>): seq<real> {
    seq(|ps|, i requires 0 <= i < |ps| => Energy(ps[i]))
  }

  function Xs(ps: seq<Particle>): seq<real> {
    seq(|ps|, i requires 0 <= i < |ps| => ps[i].x)
  }

  /** The kinetic-energy reduction every layout must compute. */
  function TotalEnergy(ps: seq<Particle>): real {
    Sum(Energies(ps))
  }

  /** The single-field reduction: the sum of the x coordinates. */
  function XSum(ps: seq<Particle>): real {
    Sum(Xs(ps))
  }

  /** A sum splits at any point of the sequence. */
  lemma {:induction false} SumAppend(a: seq<real>, b: seq<real>)
    ensures Sum(a + b) == Sum(a) + Sum(b)
    decreases |b|
  {
    if b == [] {
      assert a + b == a;
    } else {
      var b' := b[..|b| - 1];
      assert (a + b)[..|a + b| - 1] == a + b';
      SumAppend(a, b');
    }
  }

  /** A sequence of n copies of c sums to n * c. */
  lemma {:induction false} SumConstant(n: nat, c: real)
    ensures Sum(seq(n, _ => c)) == n as real * c
  {
    if n > 0 {
      assert seq(n, _ => c)[..n - 1] == seq(n - 1, _ => c);
      SumConstant(n - 1, c);
    }
  }

  lemma TotalEnergyAppend(a: seq<Particle>, b: seq<Particle>)
    ensures TotalEnergy(a + b) == TotalEnergy(a) + TotalEnergy(b)
  {
    assert Energies(a + b) == Energies(a) + Energies(b);
    SumAppend(Energies(a), Energies(b));
  }

  lemma XSumAppend(a: seq<Particle>, b: seq<Particle>)
    ensures XSum(a + b) == XSum(a) + XSum(b)
  {
    assert Xs(a + b) == Xs(a) + Xs(b);
    SumAppend(Xs(a), Xs(b));
  }

  /** One more particle adds its own energy term to the running total. */
  lemma TotalEnergySnoc(ps: seq<Particle>, p: Particle)
    ensures TotalEnergy(ps + [p]) == TotalEnergy(ps) + Energy(p)
  {
    TotalEnergyAppend(ps, [p]);
    assert Energies([p]) == [Energy(p)];
    assert [Energy(p)][..0] == [];
    assert Sum([Energy(p)]) == Sum([]) + Energy(p);
  }

  /** One more particle adds its own x to the running sum. */
  lemma XSumSnoc(ps: seq<Particle>, p: Particle)
    ensures XSum(ps + [p]) == XSum(ps) + p.x
  {
    XSumAppend(ps, [p]);
    assert Xs([p]) == [p.x];
    assert [p.x][..0] == [];
    assert Sum([p.x]) == Sum([]) + p.x;
  }

  /** A running energy total over a prefix grows by the next particle's term. */
  lemma TotalEnergyPrefix(ps: seq<Particle>, i: nat)
    requires i < |ps|
    ensures TotalEnergy(ps[..i + 1]) == TotalEnergy(ps[..i]) + Energy(ps[i])
  {
    assert ps[..i + 1] == ps[..i] + [ps[i]];
    TotalEnergySnoc(ps[..i], ps[i]);
  }

  /** A running x sum over a prefix grows by the next particle's x. */
  lemma XSumPrefix(ps: seq<Particle>, i: nat)
    requires i < |ps|
    ensures XSum(ps[..i + 1]) == XSum(ps[..i]) + ps[i].x
  {
    assert ps[..i + 1] == ps[..i] + [ps[i]];
    XSumSnoc(ps[..i], ps[i]);
  }

  /** Freshly constructed particles each carry 0.5 * 1 * (1 + 1 + 1) = 1.5,
      so n of them carry 1.5 * n (4.5 for three, 0 for none). */
  lemma InitialEnergy(n: nat)
    ensures TotalEnergy(InitialParticles(n)) == 1.5 * n as real
  {
    assert Energies(InitialParticles(n)) == seq(n, _ => 1.5);
    SumConstant(n, 1.5);
  }

  /** When every x is 1, the x sum counts the particles it visits. */
  lemma XSumOfOnes(ps: seq<Particle>)
    requires forall i :: 0 <= i < |ps| ==> ps[i].x == 1.0
    ensures XSum(ps) == |ps| as real
  {
    assert Xs(ps) == seq(|ps|, _ => 1.0);
    SumConstant(|ps|, 1.0);
  }

  /** The update never touches velocity or mass, so it leaves the kinetic
      energy unchanged. */
  lemma StepPreservesEnergy(ps: seq<Particle>, dt: real)
    ensures TotalEnergy(StepAll(ps, dt)) == TotalEnergy(ps)
  {
    forall i | 0 <= i < |ps|
      ensures Energies(StepAll(ps, dt))[i] == Energies(ps)[i]
    {
      assert StepAll(ps, dt)[i] == Step(ps[i], dt);
    }
    assert Energies(StepAll(ps, dt)) == Energies(ps);
  }

  /** One coordinate moved by v * dt1 and then by v * dt2 ends where a move
      by v * (dt1 + dt2) puts it. */
  lemma AxisTwice(x: real, v: real, dt1: real, dt2: real)
    ensures (x + v * dt1) + v * dt2 == x + v * (dt1 + dt2)
  {
    assert v * (dt1 + dt2) == v * dt1 + v * dt2;
  }

  /** Update linearity for one particle: two steps equal one step by the
      summed time, because the step never changes the velocity. */
  lemma StepTwice(p: Particle, dt1: real, dt2: real)
    ensures Step(Step(p, dt1), dt2) == Step(p, dt1 + dt2)
  {
    var once := Step(p, dt1);
    assert once == Particle(p.x + p.vx * dt1, p.y + p.vy * dt1, p.z + p.vz * dt1, p.vx, p.vy, p.vz, p.mass);
    AxisTwice(p.x, p.vx, dt1, dt2);
    AxisTwice(p.y, p.vy, dt1, dt2);
    AxisTwice(p.z, p.vz, dt1, dt2);
    assert Step(once, dt2) == Particle(p.x + p.vx * (dt1 + dt2), p.y + p.vy * (dt1 + dt2),
                                       p.z + p.vz * (dt1 + dt2), p.vx, p.vy, p.vz, p.mass);
  }

  /** Update linearity: two steps equal one step by the summed time,
      because velocities are never changed between them. */
  lemma StepAllTwice(ps: seq<Particle>, dt1: real, dt2: real)
    ensures StepAll(StepAll(ps, dt1), dt2) == StepAll(ps, dt1 + dt2)
  {
    forall i | 0 <= i < |ps|
      ensures StepAll(StepAll(ps, dt1), dt2)[i] == StepAll(ps, dt1 + dt2)[i]
    {
      assert StepAll(ps, dt1)[i] == Step(ps[i], dt1);
      StepTwice(ps[i], dt1, dt2);
    }
  }

  /** The update acts particle by particle, so it commutes with splitting. */
  lemma StepAllAppend(a: seq<Particle>, b: seq<Particle>, dt: real)
    ensures StepAll(a + b, dt) == StepAll(a, dt) + StepAll(b, dt)
  {
  }

  /** Three particles, dt = 0.016: every position becomes (0.016, 0.016, 0.016)
      and the total kinetic energy is 4.5. */
  lemma ThreeParticleScenario()
    ensures forall i :: 0 <= i < 3 ==>
      StepAll(InitialParticles(3), 0.016)[i] == Particle(0.016, 0.016, 0.016, 1.0, 1.0, 1.0, 1.0)
    ensures TotalEnergy(InitialParticles(3)) == 4.5
  {
    InitialEnergy(3);
  }
}
