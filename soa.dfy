/** Structure of Arrays: seven parallel field vectors indexed in lockstep. */
module SoA {
  import opened ParticleModel

  /** The logical particles read across seven equally long field vectors:
      particle i is made of the i-th entry of each. */
  function Zip(x: seq<real>, y: seq<real>, z: seq<real>,
               vx: seq<real>, vy: seq<real>, vz: seq<real>, mass: seq<real>): seq<Particle>
    requires |y| == |z| == |vx| == |vy| == |vz| == |mass| == |x|
  {
    seq(|x|, i requires 0 <= i < |x| => Particle(x[i], y[i], z[i], vx[i], vy[i], vz[i], mass[i]))
  }

  /** Moving every position by its velocity times dt in the field vectors
      moves every zipped particle by the Euler step. */
  lemma ZipStep(x: seq<real>, y: seq<real>, z: seq<real>,
                vx: seq<real>, vy: seq<real>, vz: seq<real>, mass: seq<real>,
                x': seq<real>, y': seq<real>, z': seq<real>, dt: real)
    requires |y| == |z| == |vx| == |vy| == |vz| == |mass| == |x| == |x'| == |y'| == |z'|
    requires forall k :: 0 <= k < |x| ==> x'[k] == x[k] + vx[k] * dt
    requires forall k :: 0 <= k < |x| ==> y'[k] == y[k] + vy[k] * dt
    requires forall k :: 0 <= k < |x| ==> z'[k] == z[k] + vz[k] * dt
    ensures Zip(x', y', z', vx, vy, vz, mass) == StepAll(Zip(x, y, z, vx, vy, vz, mass), dt)
  {
    var before, after := Zip(x, y, z, vx, vy, vz, mass), Zip(x', y', z', vx, vy, vz, mass);
    forall k | 0 <= k < |x|
      ensures after[k] == StepAll(before, dt)[k]
    {
      assert before[k] == Particle(x[k], y[k], z[k], vx[k], vy[k], vz[k], mass[k]);
      assert after[k] == Particle(x'[k], y'[k], z'[k], vx[k], vy[k], vz[k], mass[k]);
    }
  }

  class ParticlesSoA {
    var x: seq<real>
    var y: seq<real>
    var z: seq<real>
    var vx: seq<real>
    var vy: seq<real>
    var vz: seq<real>
    var mass: seq<real>

    /** The lockstep invariant: all seven vectors have the same length. */
    ghost predicate Valid()
      reads this
    {
      |y| == |z| == |vx| == |vy| == |vz| == |mass| == |x|
    }

    /** The particle sequence this collection stands for. */
    ghost function View(): seq<Particle>
      reads this
      requires Valid()
    {
      Zip(x, y, z, vx, vy, vz, mass)
    }

    /** Every vector gets length `size`; positions 0, velocities and mass 1. */
    constructor (size: nat)
      ensures Valid() && |x| == size
      ensures x == y == z == seq(size, _ => 0.0)
      ensures vx == vy == vz == mass == seq(size, _ => 1.0)
      ensures View() == InitialParticles(size)
    {
      x := seq(size, _ => 0.0);
      y := seq(size, _ => 0.0);
      z := seq(size, _ => 0.0);
      vx := seq(size, _ => 1.0);
      vy := seq(size, _ => 1.0);
      vz := seq(size, _ => 1.0);
      mass := seq(size, _ => 1.0);
    }

    /** Advances every position by its velocity times dt. Only the three
        position vectors may change; their lengths do not. */
    method UpdatePositions(dt: real)
      requires Valid()
      modifies this`x, this`y, this`z
      ensures Valid()
      ensures |x| == old(|x|)
      ensures forall i :: 0 <= i < |x| ==> x[i] == old(x[i]) + vx[i] * dt
      ensures forall i :: 0 <= i < |y| ==> y[i] == old(y[i]) + vy[i] * dt
      ensures forall i :: 0 <= i < |z| ==> z[i] == old(z[i]) + vz[i] * dt
      ensures View() == StepAll(old(View()), dt)
    {
      var nx, ny, nz := x, y, z;
      for i := 0 to |x|
        invariant |nx| == |ny| == |nz| == |x|
        invariant forall k :: 0 <= k < i ==> nx[k] == x[k] + vx[k] * dt
        invariant forall k :: 0 <= k < i ==> ny[k] == y[k] + vy[k] * dt
        invariant forall k :: 0 <= k < i ==> nz[k] == z[k] + vz[k] * dt
        invariant nx[i..] == x[i..] && ny[i..] == y[i..] && nz[i..] == z[i..]
      {
        nx := nx[i := nx[i] + vx[i] * dt];
        ny := ny[i := ny[i] + vy[i] * dt];
        nz := nz[i := nz[i] + vz[i] * dt];
      }
      ZipStep(x, y, z, vx, vy, vz, mass, nx, ny, nz, dt);
      x, y, z := nx, ny, nz;
    }

    /** The kinetic energy of all particles, accumulated in index order. */
    method KineticEnergy() returns (total: real)
      requires Valid()
      ensures total == TotalEnergy(View())
    {
      total := 0.0;
      for i := 0 to |x|
        invariant total == TotalEnergy(View()[..i])
      {
        var vSquared := vx[i] * vx[i] + vy[i] * vy[i] + vz[i] * vz[i];
        total := total + 0.5 * mass[i] * vSquared;
        TotalEnergyPrefix(View(), i);
      }
      assert View()[..|x|] == View();
    }

    /** Sets every x to 1, leaving every other vector as it was. */
    method InitXToOne()
      requires Valid()
      modifies this`x
      ensures Valid()
      ensures x == seq(old(|x|), _ => 1.0)
    {
      for i := 0 to |x|
        invariant |x| == old(|x|)
        invariant forall k :: 0 <= k < i ==> x[k] == 1.0
      {
        x := x[i := 1.0];
      }
    }

    /** The sum of the x vector alone. */
    method SumX() returns (sum: real)
      requires Valid()
      ensures sum == XSum(View())
    {
      sum := 0.0;
      for i := 0 to |x|
        invariant sum == XSum(View()[..i])
      {
        sum := sum + x[i];
        XSumPrefix(View(), i);
      }
      assert View()[..|x|] == View();
    }
  }
}
