/** The 12-slot state vector (Equation 12) and its per-step update law, as
    values. This is the specification of `Init` and `Update`.

    Slot layout (0-based): 0 x, 1 dx, 2 y, 3 dy, 4 z, 5 dz,
    6 roll phi, 7 roll rate, 8 pitch theta, 9 pitch rate, 10 yaw psi, 11 yaw rate. */
module StateIntegrator {
  import opened Physics

  const StateSize: nat := 12

  function Zeros(n: nat): (z: seq<real>)
    ensures |z| == n
    ensures forall i :: 0 <= i < n ==> z[i] == 0.0
  {
    seq(n, _ => 0.0)
  }

  // Views of the state vector, by meaning.

  function Position(s: seq<real>): (view: seq<real>)
    requires |s| == StateSize
  {
    [s[0], s[2], s[4]]
  }

  function Velocity(s: seq<real>): (view: seq<real>)
    requires |s| == StateSize
  {
    [s[1], s[3], s[5]]
  }

  function EulerAngles(s: seq<real>): (view: seq<real>)
    requires |s| == StateSize
  {
    [s[6], s[8], s[10]]
  }

  function AngularVelocity(s: seq<real>): (view: seq<real>)
    requires |s| == StateSize
  {
    [s[7], s[9], s[11]]
  }

  /** The four views together determine the whole state vector. */
  lemma ViewsDetermineState(s: seq<real>, t: seq<real>)
    requires |s| == StateSize && |t| == StateSize
    ensures s == t <==>
      Position(s) == Position(t) && Velocity(s) == Velocity(t) &&
      EulerAngles(s) == EulerAngles(t) && AngularVelocity(s) == AngularVelocity(t)
  {
    if Position(s) == Position(t) && Velocity(s) == Velocity(t) &&
       EulerAngles(s) == EulerAngles(t) && AngularVelocity(s) == AngularVelocity(t)
    {
      assert Position(s)[0] == Position(t)[0] && Position(s)[1] == Position(t)[1] && Position(s)[2] == Position(t)[2];
      assert Velocity(s)[0] == Velocity(t)[0] && Velocity(s)[1] == Velocity(t)[1] && Velocity(s)[2] == Velocity(t)[2];
      assert EulerAngles(s)[0] == EulerAngles(t)[0] && EulerAngles(s)[1] == EulerAngles(t)[1] && EulerAngles(s)[2] == EulerAngles(t)[2];
      assert AngularVelocity(s)[0] == AngularVelocity(t)[0] && AngularVelocity(s)[1] == AngularVelocity(t)[1] && AngularVelocity(s)[2] == AngularVelocity(t)[2];
      forall i | 0 <= i < StateSize ensures s[i] == t[i] {
        assert i in {0, 1, 2, 3, 4, 5, 6, 7, 8, 9, 10, 11};
      }
    }
  }

  /** The state `init` leaves: zero everywhere, then the pose written into the
      position and angle slots. */
  function InitState(position: seq<real>, rotation: seq<real>): (s: seq<real>)
    requires |position| == 3 && |rotation| == 3
    ensures |s| == StateSize
    ensures Position(s) == position && EulerAngles(s) == rotation
    ensures Velocity(s) == Zeros(3) && AngularVelocity(s) == Zeros(3)
  {
    Zeros(StateSize)[0 := position[0]][2 := position[1]][4 := position[2]]
                    [6 := rotation[0]][8 := rotation[1]][10 := rotation[2]]
  }

  /** Initialising a state that is at rest at its own pose gives it back; in
      particular a second `init` with the same pose changes nothing. */
  lemma InitAtOwnPoseIsIdentity(s: seq<real>)
    requires |s| == StateSize
    requires Velocity(s) == Zeros(3) && AngularVelocity(s) == Zeros(3)
    ensures InitState(Position(s), EulerAngles(s)) == s
  {
    ViewsDetermineState(InitState(Position(s), EulerAngles(s)), s);
  }

  lemma InitIsIdempotent(position: seq<real>, rotation: seq<real>)
    requires |position| == 3 && |rotation| == 3
    ensures var s := InitState(position, rotation);
            InitState(Position(s), EulerAngles(s)) == s
  {
    InitAtOwnPoseIsIdentity(InitState(position, rotation));
  }

  // The right-hand sides of Equation 12, as functions of the slots and forces
  // they read. The engine stores each of them directly in the velocity or rate
  // slot, without multiplying by dt.

  function AccelX(phi: real, theta: real, psi: real, u1: real, v: Vehicle, t: Trig): (r: real)
    requires NonZeroDivisors(v)
  {
    (t.cos(phi) * t.sin(theta) * t.cos(psi) + t.sin(phi) * t.sin(psi)) * u1 / v.m
  }

  function AccelY(phi: real, theta: real, psi: real, u1: real, v: Vehicle, t: Trig): (r: real)
    requires NonZeroDivisors(v)
  {
    (t.cos(phi) * t.sin(theta) * t.sin(psi) + t.sin(phi) * t.cos(psi)) * u1 / v.m
  }

  function AccelZ(phi: real, theta: real, u1: real, v: Vehicle, t: Trig): (r: real)
    requires NonZeroDivisors(v)
  {
    -G + (t.cos(phi) * t.cos(theta)) * u1 / v.m
  }

  function RollAccel(pitchRate: real, yawRate: real, omega: real, u2: real, v: Vehicle): (r: real)
    requires NonZeroDivisors(v)
  {
    yawRate * pitchRate * (v.Iy - v.Iz) / v.Ix - v.Jr / v.Ix * pitchRate * omega + v.l / v.Ix * u2
  }

  function PitchAccel(rollRate: real, yawRate: real, omega: real, u3: real, v: Vehicle): (r: real)
    requires NonZeroDivisors(v)
  {
    yawRate * rollRate * (v.Iz - v.Ix) / v.Iy + v.Jr / v.Iy * rollRate * omega + v.l / v.Iy * u3
  }

  function YawAccel(rollRate: real, pitchRate: real, u4: real, v: Vehicle): (r: real)
    requires NonZeroDivisors(v)
  {
    pitchRate * rollRate * (v.Ix - v.Iy) / v.Iz + v.l / v.Iz * u4
  }

  /** The state `update` leaves, in the engine's order of evaluation: the pitch
      rate is computed from the roll rate just written, and the yaw rate from
      the roll and pitch rates just written. The new position and angles are
      the OLD velocity and body rates, with no time-step scaling. */
  function Next(s: seq<real>, f: Forces, v: Vehicle, t: Trig): (r: seq<real>)
    requires |s| == StateSize && NonZeroDivisors(v)
    ensures |r| == StateSize
    ensures Position(r) == Velocity(s) && EulerAngles(r) == AngularVelocity(s)
  {
    var p := RollAccel(s[9], s[11], f.omega, f.u2, v);
    var q := PitchAccel(p, s[11], f.omega, f.u3, v);
    var y := YawAccel(p, q, f.u4, v);
    [s[1], AccelX(s[6], s[8], s[10], f.u1, v, t),
     s[3], AccelY(s[6], s[8], s[10], f.u1, v, t),
     s[5], AccelZ(s[6], s[8], f.u1, v, t),
     s[7], p, s[9], q, s[11], y]
  }

  /** Reference: the same law with every right-hand side read from the state
      before the step (an explicit scheme). */
  function ExplicitNext(s: seq<real>, f: Forces, v: Vehicle, t: Trig): (r: seq<real>)
    requires |s| == StateSize && NonZeroDivisors(v)
    ensures |r| == StateSize
  {
    [s[1], AccelX(s[6], s[8], s[10], f.u1, v, t),
     s[3], AccelY(s[6], s[8], s[10], f.u1, v, t),
     s[5], AccelZ(s[6], s[8], f.u1, v, t),
     s[7], RollAccel(s[9], s[11], f.omega, f.u2, v),
     s[9], PitchAccel(s[7], s[11], f.omega, f.u3, v),
     s[11], YawAccel(s[7], s[9], f.u4, v)]
  }

  /** The three linear velocities depend on the old state only through the
      old roll, pitch and yaw angles. */
  lemma LinearVelocitiesReadOldAngles(s: seq<real>, s': seq<real>, f: Forces, v: Vehicle, t: Trig)
    requires |s| == StateSize && |s'| == StateSize && NonZeroDivisors(v)
    requires EulerAngles(s) == EulerAngles(s')
    ensures Velocity(Next(s, f, v, t)) == Velocity(Next(s', f, v, t))
  {
    assert s[6] == EulerAngles(s)[0] == EulerAngles(s')[0] == s'[6];
    assert s[8] == EulerAngles(s)[1] == EulerAngles(s')[1] == s'[8];
    assert s[10] == EulerAngles(s)[2] == EulerAngles(s')[2] == s'[10];
  }

  /** With zero thrust there is no horizontal velocity and the vertical
      velocity is exactly -G (not -G scaled by any time step). */
  lemma FreeFallWithoutThrust(s: seq<real>, f: Forces, v: Vehicle, t: Trig)
    requires |s| == StateSize && NonZeroDivisors(v) && f.u1 == 0.0
    ensures Velocity(Next(s, f, v, t)) == [0.0, 0.0, -G]
  {
  }

  /** Evaluation order: the new pitch rate is the law applied to the NEW roll
      rate; the new yaw rate to the NEW roll and pitch rates. */
  lemma RatesReadFreshRates(s: seq<real>, f: Forces, v: Vehicle, t: Trig)
    requires |s| == StateSize && NonZeroDivisors(v)
    ensures var r := Next(s, f, v, t);
            r[7] == RollAccel(s[9], s[11], f.omega, f.u2, v) &&
            r[9] == PitchAccel(r[7], s[11], f.omega, f.u3, v) &&
            r[11] == YawAccel(r[7], r[9], f.u4, v)
  {
  }

  /** Outside the pitch and yaw rates, the engine's order and the explicit
      scheme agree. */
  lemma SchemesAgreeOutsideCoupledRates(s: seq<real>, f: Forces, v: Vehicle, t: Trig)
    requires |s| == StateSize && NonZeroDivisors(v)
    ensures forall i :: 0 <= i < StateSize && i != 9 && i != 11 ==>
      Next(s, f, v, t)[i] == ExplicitNext(s, f, v, t)[i]
  {
    forall i | 0 <= i < StateSize && i != 9 && i != 11
      ensures Next(s, f, v, t)[i] == ExplicitNext(s, f, v, t)[i]
    {
      assert i in {0, 1, 2, 3, 4, 5, 6, 7, 8, 10};
    }
  }

  /** The pitch law is affine in the roll rate it reads. */
  lemma PitchAccelDifference(a: real, b: real, yawRate: real, omega: real, u3: real, v: Vehicle)
    requires NonZeroDivisors(v)
    ensures PitchAccel(a, yawRate, omega, u3, v) - PitchAccel(b, yawRate, omega, u3, v) ==
            (a - b) * Coupling(yawRate, omega, v)
  {
    var k := (v.Iz - v.Ix) / v.Iy;
    assert yawRate * a * (v.Iz - v.Ix) / v.Iy == a * (yawRate * k);
    assert yawRate * b * (v.Iz - v.Ix) / v.Iy == b * (yawRate * k);
  }

  /** The factor by which the pitch law depends on the roll rate. */
  function Coupling(yawRate: real, omega: real, v: Vehicle): (r: real)
    requires NonZeroDivisors(v)
  {
    yawRate * ((v.Iz - v.Ix) / v.Iy) + v.Jr / v.Iy * omega
  }

  /** The new pitch rate matches the explicit scheme exactly when the change
      of the roll rate is multiplied by a vanishing coupling term. */
  lemma PitchRateAgreesIff(s: seq<real>, f: Forces, v: Vehicle, t: Trig)
    requires |s| == StateSize && NonZeroDivisors(v)
    ensures Next(s, f, v, t)[9] == ExplicitNext(s, f, v, t)[9] <==>
            (Next(s, f, v, t)[7] - s[7]) * Coupling(s[11], f.omega, v) == 0.0
  {
    PitchAccelDifference(Next(s, f, v, t)[7], s[7], s[11], f.omega, f.u3, v);
  }

  /** When the step leaves the roll and pitch rates as they were, the engine's
      order and the explicit scheme give the same state. */
  lemma SteadyRatesMakeSchemesAgree(s: seq<real>, f: Forces, v: Vehicle, t: Trig)
    requires |s| == StateSize && NonZeroDivisors(v)
    requires Next(s, f, v, t)[7] == s[7] && Next(s, f, v, t)[9] == s[9]
    ensures Next(s, f, v, t) == ExplicitNext(s, f, v, t)
  {
    SchemesAgreeOutsideCoupledRates(s, f, v, t);
    var r, e := Next(s, f, v, t), ExplicitNext(s, f, v, t);
    assert r[9] == e[9];
    assert r[11] == e[11];
    forall i | 0 <= i < StateSize ensures r[i] == e[i] {
    }
  }

  /** The two schemes do differ: a vehicle with Iz != Ix and no rotor
      inertia, spinning in yaw only, that receives a roll moment gets from the
      engine a pitch rate the explicit scheme does not give. */
  lemma SchemesDifferUnderRollMoment(s: seq<real>, f: Forces, v: Vehicle, t: Trig)
    requires |s| == StateSize && NonZeroDivisors(v)
    requires s[7] == 0.0 && s[9] == 0.0 && s[11] != 0.0
    requires v.Iz != v.Ix && v.Jr == 0.0 && v.l != 0.0 && f.u2 != 0.0
    ensures Next(s, f, v, t)[9] != ExplicitNext(s, f, v, t)[9]
  {
    var p := Next(s, f, v, t)[7];
    assert p == v.l / v.Ix * f.u2;
    assert v.l / v.Ix != 0.0;
    assert p != 0.0;
    assert Coupling(s[11], f.omega, v) == s[11] * ((v.Iz - v.Ix) / v.Iy);
    assert (v.Iz - v.Ix) / v.Iy != 0.0;
    assert Coupling(s[11], f.omega, v) != 0.0;
    PitchRateAgreesIff(s, f, v, t);
  }
}
