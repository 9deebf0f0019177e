/** Motor mixing (Equation 6): from per-motor commands to the generalized
    forces. This is the value-level specification of `SetMotors`. */
module MotorMixer {
  import opened Physics

  /** One motor command converted from a fraction of `maxrpm` to rad/s. */
  function RadPerSec(command: real, maxrpm: nat): (speed: real)
  {
    command * (maxrpm as real) * Pi / 30.0
  }

  /** The speed buffer after the conversion loop: one speed per command. */
  function Speeds(commands: seq<real>, maxrpm: nat): (w: seq<real>)
    ensures |w| == |commands|
    ensures forall i :: 0 <= i < |w| ==> w[i] == RadPerSec(commands[i], maxrpm)
  {
    seq(|commands|, i requires 0 <= i < |commands| => RadPerSec(commands[i], maxrpm))
  }

  /** The speed buffer after the in-place squaring loop. */
  function Squares(w: seq<real>): (s: seq<real>)
    ensures |s| == |w|
    ensures forall i :: 0 <= i < |s| ==> s[i] == w[i] * w[i]
  {
    seq(|w|, i requires 0 <= i < |w| => w[i] * w[i])
  }

  /** Left-to-right accumulation, as the conversion loop adds into U1. */
  function Sum(s: seq<real>): (total: real)
  {
    if |s| == 0 then 0.0 else Sum(s[..|s| - 1]) + s[|s| - 1]
  }

  /** U1: the sum of the raw (unsquared) speeds, scaled by the thrust
      coefficient. */
  function Thrust(v: Vehicle, commands: seq<real>): (u1: real)
  {
    Sum(Speeds(commands, v.maxrpm)) * v.b
  }

  /** The forces `SetMotors` stores: U1 and Omega from the raw speeds, U2..U4
      from the squared speeds. */
  function Mix(v: Vehicle, commands: seq<real>): (f: Forces)
  {
    var w := Speeds(commands, v.maxrpm);
    var sq := Squares(w);
    Forces(Thrust(v, commands), v.b * v.u2(sq), v.b * v.u3(sq), v.d * v.u4(sq), v.omega(w))
  }

  /** The rpm-to-rad/s factor every command is multiplied by. */
  function SpeedFactor(maxrpm: nat): (factor: real)
  {
    (maxrpm as real) * Pi / 30.0
  }

  lemma {:induction false} SumOfSpeeds(commands: seq<real>, maxrpm: nat)
    ensures Sum(Speeds(commands, maxrpm)) == SpeedFactor(maxrpm) * Sum(commands)
    decreases |commands|
  {
    if |commands| > 0 {
      var n := |commands|;
      var front := commands[..n - 1];
      assert Speeds(commands, maxrpm)[..n - 1] == Speeds(front, maxrpm);
      SumOfSpeeds(front, maxrpm);
      assert RadPerSec(commands[n - 1], maxrpm) == SpeedFactor(maxrpm) * commands[n - 1];
    }
  }

  /** Total thrust is LINEAR in the commands: U1 sums raw speeds, not squares. */
  lemma ThrustIsLinear(v: Vehicle, commands: seq<real>)
    ensures Thrust(v, commands) == SpeedFactor(v.maxrpm) * Sum(commands) * v.b
  {
    SumOfSpeeds(commands, v.maxrpm);
  }

  lemma {:induction false} SumAfterReplace(s: seq<real>, i: nat, a: real)
    requires i < |s|
    ensures Sum(s[i := a]) == Sum(s) - s[i] + a
    decreases |s|
  {
    var n := |s|;
    if i == n - 1 {
      assert s[i := a][..n - 1] == s[..n - 1];
    } else {
      assert s[i := a][..n - 1] == s[..n - 1][i := a];
      SumAfterReplace(s[..n - 1], i, a);
    }
  }

  lemma {:induction false} SumNonNegative(s: seq<real>)
    requires forall i :: 0 <= i < |s| ==> s[i] >= 0.0
    ensures Sum(s) >= 0.0
    decreases |s|
  {
    if |s| > 0 {
      SumNonNegative(s[..|s| - 1]);
    }
  }

  lemma {:induction false} SumOfZeros(s: seq<real>)
    requires forall i :: 0 <= i < |s| ==> s[i] == 0.0
    ensures Sum(s) == 0.0
    decreases |s|
  {
    if |s| > 0 {
      SumOfZeros(s[..|s| - 1]);
    }
  }

  /** Raising one motor's command while the others stay fixed strictly raises
      U1 (for a vehicle with positive thrust coefficient and maximum rpm). */
  lemma ThrustIncreasesWithOneCommand(v: Vehicle, commands: seq<real>, i: nat, a: real)
    requires i < |commands| && commands[i] < a
    requires v.b > 0.0 && v.maxrpm > 0
    ensures Thrust(v, commands[i := a]) > Thrust(v, commands)
  {
    var f := SpeedFactor(v.maxrpm);
    assert Thrust(v, commands) == f * Sum(commands) * v.b by {
      ThrustIsLinear(v, commands);
    }
    assert Thrust(v, commands[i := a]) == f * Sum(commands[i := a]) * v.b by {
      ThrustIsLinear(v, commands[i := a]);
    }
    assert Sum(commands) < Sum(commands[i := a]) by {
      SumAfterReplace(commands, i, a);
    }
    ScaledIsMonotone(Thrust(v, commands), Thrust(v, commands[i := a]),
                     f, v.b, Sum(commands), Sum(commands[i := a]));
  }

  lemma ScaledIsMonotone(t: real, t': real, f: real, b: real, lo: real, hi: real)
    requires f > 0.0 && b > 0.0 && lo < hi
    requires t == f * lo * b && t' == f * hi * b
    ensures t < t'
  {
    assert f * lo < f * hi;
  }

  /** Commands that are not negative and a thrust coefficient that is not
      negative never give negative total thrust. */
  lemma ThrustNonNegative(v: Vehicle, commands: seq<real>)
    requires forall i :: 0 <= i < |commands| ==> 0.0 <= commands[i] <= 1.0
    requires v.b >= 0.0
    ensures Thrust(v, commands) >= 0.0
  {
    var f := SpeedFactor(v.maxrpm);
    assert Thrust(v, commands) == f * Sum(commands) * v.b by {
      ThrustIsLinear(v, commands);
    }
    assert Sum(commands) >= 0.0 by {
      SumNonNegative(commands);
    }
    assert f * Sum(commands) >= 0.0;
  }

  /** All-zero commands give zero total thrust and an all-zero speed buffer,
      whatever the vehicle. */
  lemma ZeroCommandsGiveZeroThrust(v: Vehicle, commands: seq<real>)
    requires forall i :: 0 <= i < |commands| ==> commands[i] == 0.0
    ensures Thrust(v, commands) == 0.0
    ensures forall i :: 0 <= i < |commands| ==> Squares(Speeds(commands, v.maxrpm))[i] == 0.0
  {
    ThrustIsLinear(v, commands);
    SumOfZeros(commands);
  }

  /** When the vehicle's mixing rules vanish on an all-zero buffer (as linear
      combinations do), all-zero commands give all-zero forces. */
  lemma ZeroCommandsGiveZeroForces(v: Vehicle, commands: seq<real>)
    requires forall i :: 0 <= i < |commands| ==> commands[i] == 0.0
    requires v.u2(seq(|commands|, _ => 0.0)) == 0.0
    requires v.u3(seq(|commands|, _ => 0.0)) == 0.0
    requires v.u4(seq(|commands|, _ => 0.0)) == 0.0
    requires v.omega(seq(|commands|, _ => 0.0)) == 0.0
    ensures Mix(v, commands) == Forces(0.0, 0.0, 0.0, 0.0, 0.0)
  {
    ZeroCommandsGiveZeroThrust(v, commands);
    var zeros := seq(|commands|, _ => 0.0);
    assert Speeds(commands, v.maxrpm) == zeros;
    assert Squares(Speeds(commands, v.maxrpm)) == zeros;
  }
}
