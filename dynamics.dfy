/** The stateful engine: a multirotor's 12-slot state vector, its per-motor
    speed buffer and the generalized forces, updated in place. */
module Dynamics {
  import opened Physics
  import opened MotorMixer
  import opened StateIntegrator

  class MultirotorDynamics {
    /** The concrete vehicle's constants and mixing rules. */
    const vehicle: Vehicle
    /** cos and sin from the math library. */
    const trig: Trig
    const nmotors: nat

    /** State vector of Equation 12. */
    const x: array<real>
    /** Per-motor speeds in rad/s (squared in place by SetMotors). */
    const omegas: array<real>

    var airborne: bool

    // Values computed in Equation 6.
    var U1: real
    var U2: real
    var U3: real
    var U4: real
    var Omega: real

    ghost predicate Valid()
    {
      x.Length == StateSize && omegas.Length == nmotors && x != omegas
    }

    ghost function CurrentForces(): Forces
      reads this
    {
      Forces(U1, U2, U3, U4, Omega)
    }

    /** The engine's constructor only allocates the speed buffer and never
        stores its argument in `_nmotors`, which the loops of `setMotors` then
        read uninitialised; here the motor count is set to the argument. */
    constructor (nmotors: nat, vehicle: Vehicle, trig: Trig)
      ensures Valid()
      ensures this.nmotors == nmotors && this.vehicle == vehicle && this.trig == trig
      ensures fresh(x) && fresh(omegas)
      ensures x[..] == Zeros(StateSize)
      ensures !airborne && CurrentForces() == Forces(0.0, 0.0, 0.0, 0.0, 0.0)
    {
      this.nmotors := nmotors;
      this.vehicle := vehicle;
      this.trig := trig;
      x := new real[StateSize](_ => 0.0);
      omegas := new real[nmotors];
      airborne := false;
      U1, U2, U3, U4, Omega := 0.0, 0.0, 0.0, 0.0, 0.0;
    }

    /** 1-based access to the state vector: odd numbers 1, 3, 5 are the
        position, even numbers 2, 4, 6 the velocity, 7, 9, 11 the Euler angles
        and 8, 10, 12 the body rates. */
    function X(j: int): (r: real)
      requires Valid() && 1 <= j <= StateSize
      reads x
      ensures j <= 6 && j % 2 == 1 ==> r == Position(x[..])[j / 2]
      ensures j <= 6 && j % 2 == 0 ==> r == Velocity(x[..])[j / 2 - 1]
      ensures j > 6 && j % 2 == 1 ==> r == EulerAngles(x[..])[(j - 7) / 2]
      ensures j > 6 && j % 2 == 0 ==> r == AngularVelocity(x[..])[(j - 8) / 2]
    {
      x[j - 1]
    }

    /** Resets the state to the given pose with all rates zero. The result
        depends only on the arguments. */
    method Init(position: seq<real>, rotation: seq<real>, airborne: bool := false)
      requires Valid()
      requires |position| == 3 && |rotation| == 3
      modifies x, this`airborne
      ensures x[..] == InitState(position, rotation)
      ensures this.airborne == airborne
      ensures CurrentForces() == old(CurrentForces()) && omegas[..] == old(omegas[..])
    {
      for i := 0 to StateSize
        invariant forall k :: 0 <= k < i ==> x[k] == 0.0
      {
        x[i] := 0.0;
      }

      x[0] := position[0];
      x[2] := position[1];
      x[4] := position[2];
      x[6] := rotation[0];
      x[8] := rotation[1];
      x[10] := rotation[2];

      this.airborne := airborne;
      assert x[..] == InitState(position, rotation);
    }

    /** Overwrites the twelve slots one after another; later lines read slots
        that earlier lines have already overwritten. `dt` is not used. */
    method Update(dt: real)
      requires Valid() && NonZeroDivisors(vehicle)
      modifies x
      ensures x[..] == Next(old(x[..]), CurrentForces(), vehicle, trig)
      ensures airborne == old(airborne)
    {
      ghost var s := x[..];
      x[0] := X(2);
      x[1] := AccelX(X(7), X(9), X(11), U1, vehicle, trig);
      x[2] := X(4);
      x[3] := AccelY(X(7), X(9), X(11), U1, vehicle, trig);
      x[4] := X(6);
      x[5] := AccelZ(X(7), X(9), U1, vehicle, trig);
      x[6] := X(8);
      x[7] := RollAccel(X(10), X(12), Omega, U2, vehicle);
      x[8] := X(10);
      x[9] := PitchAccel(X(8), X(12), Omega, U3, vehicle);
      x[10] := X(12);
      x[11] := YawAccel(X(8), X(10), U4, vehicle);
      ghost var r := Next(s, CurrentForces(), vehicle, trig);
      forall k | 0 <= k < StateSize ensures x[k] == r[k] {
        assert k in {0, 1, 2, 3, 4, 5, 6, 7, 8, 9, 10, 11};
      }
    }

    /** Converts the commands to rad/s in the buffer while summing them into
        U1, computes Omega from the raw speeds, squares the buffer in place and
        derives U2..U4 from the squares. */
    method SetMotors(motorvals: seq<real>)
      requires Valid()
      requires |motorvals| == nmotors
      modifies omegas, this`U1, this`U2, this`U3, this`U4, this`Omega
      ensures omegas[..] == Squares(Speeds(motorvals, vehicle.maxrpm))
      ensures CurrentForces() == Mix(vehicle, motorvals)
      ensures unchanged(x) && airborne == old(airborne)
    {
      ConvertAndSum(motorvals);

      U1 := U1 * vehicle.b;

      Omega := vehicle.omega(omegas[..]);

      SquareSpeeds();

      var squared := omegas[..];
      U2 := vehicle.b * vehicle.u2(squared);
      U3 := vehicle.b * vehicle.u3(squared);
      U4 := vehicle.d * vehicle.u4(squared);
    }

    /** The first loop of `SetMotors`: each command in rad/s into the buffer,
        and their running sum into U1. */
    method ConvertAndSum(motorvals: seq<real>)
      requires Valid()
      requires |motorvals| == nmotors
      modifies omegas, this`U1
      ensures omegas[..] == Speeds(motorvals, vehicle.maxrpm)
      ensures U1 == Sum(Speeds(motorvals, vehicle.maxrpm))
    {
      ghost var w := Speeds(motorvals, vehicle.maxrpm);
      U1 := 0.0;
      for i := 0 to nmotors
        invariant omegas[..i] == w[..i]
        invariant U1 == Sum(w[..i])
      {
        omegas[i] := RadPerSec(motorvals[i], vehicle.maxrpm);
        assert w[..i + 1][..i] == w[..i];
        U1 := U1 + omegas[i];
      }
      assert omegas[..] == w;
      assert w[..nmotors] == w;
    }

    /** The second loop of `SetMotors`: squares the buffer in place. */
    method SquareSpeeds()
      requires Valid()
      modifies omegas
      ensures omegas[..] == Squares(old(omegas[..]))
    {
      for i := 0 to nmotors
        invariant forall k :: 0 <= k < i ==> omegas[k] == old(omegas[k]) * old(omegas[k])
        invariant forall k :: i <= k < nmotors ==> omegas[k] == old(omegas[k])
      {
        omegas[i] := omegas[i] * omegas[i];
      }
      ghost var sq := Squares(old(omegas[..]));
      forall k | 0 <= k < nmotors ensures omegas[k] == sq[k] {
        assert old(omegas[..])[k] == old(omegas[k]);
      }
    }

    /** The engine's accessor has an empty body: it writes none of its four
        output arrays and changes nothing. */
    method GetState(angularVelocity: array<real>, eulerAngles: array<real>,
                    velocityXYZ: array<real>, positionXYZ: array<real>)
      ensures unchanged(angularVelocity, eulerAngles, velocityXYZ, positionXYZ)
      ensures unchanged(this, x, omegas)
    {
    }
  }

  /** `update` ignores its time step: two engines in the same state with the
      same vehicle and forces end in the same state whatever steps they get. */
  method UpdateIgnoresTimeStep(a: MultirotorDynamics, b: MultirotorDynamics, dt1: real, dt2: real)
    requires a.Valid() && b.Valid() && a.x != b.x
    requires NonZeroDivisors(a.vehicle) && b.vehicle == a.vehicle && b.trig == a.trig
    requires a.x[..] == b.x[..] && a.CurrentForces() == b.CurrentForces()
    modifies a.x, b.x
    ensures a.x[..] == b.x[..]
  {
    a.Update(dt1);
    b.Update(dt2);
  }

  /** Calling `init` twice with the same arguments leaves the same state as
      calling it once, whatever the state before. */
  method InitTwice(e: MultirotorDynamics, position: seq<real>, rotation: seq<real>, airborne: bool)
    requires e.Valid()
    requires |position| == 3 && |rotation| == 3
    modifies e.x, e`airborne
    ensures e.x[..] == InitState(position, rotation) && e.airborne == airborne
  {
    e.Init(position, rotation, airborne);
    ghost var once := e.x[..];
    e.Init(position, rotation, airborne);
    assert e.x[..] == once;
  }
}
