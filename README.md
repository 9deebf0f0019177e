# MulticopterSim multirotor dynamics

A Dafny model of the `MultirotorDynamics` engine of MulticopterSim. The engine
keeps a 12-slot state vector (position, velocity, Euler angles and body rates,
interleaved as value/derivative pairs), a per-motor speed buffer and the five
generalized forces of Equation 6 (U1..U4 and the net rotor speed Omega). It has
four operations:

- `init` writes a pose into a zeroed state;
- `setMotors` converts motor commands in [0,1] to rad/s, sums them into U1,
  derives Omega from the raw speeds, squares the buffer in place and derives
  U2..U4 from the squares;
- `update` overwrites the twelve slots from the state and the forces
  (Equation 12);
- `getState` is an accessor whose body is empty.

The project has four modules:

- `Physics` (physics.dfy) holds the constants g and pi and the `Vehicle`
  record. `Vehicle` stands for the pure virtual members a concrete vehicle
  supplies: b, d, m, l, Ix, Iy, Iz, Jr, maxrpm and the mixing rules u2, u3, u4,
  omega. `Trig` carries cos and sin as uninterpreted functions.
- `MotorMixer` (mixer.dfy) is the value-level specification of `setMotors`.
  Its lemmas are about total thrust: it is linear in the commands, raising one
  command raises it, and it is never negative.
- `StateIntegrator` (integrator.dfy) is the value-level specification of `init`
  and `update`. `Next` is the update in the engine's own order of evaluation.
  `ExplicitNext` is a reference scheme in which every right-hand side reads the
  pre-step state. Lemmas relate the two.
- `Dynamics` (dynamics.dfy) holds the class `MultirotorDynamics`. The state
  vector and the speed buffer are arrays and the forces are fields. Each method
  is proved against the functions above.

The model follows the code as written, including where it departs from the
textbook equations it cites:

- `update` never uses `dt`. A conventional Euler step would store
  `x + dx * dt` in each slot; `update` stores the derivative itself.
  `UpdateIgnoresTimeStep` states this.
- `update` writes the slots in order, and later lines read slots already
  overwritten: the pitch-rate law reads the NEW roll rate and the yaw-rate law
  reads the NEW roll and pitch rates. `ExplicitNext` reads every right-hand
  side from the pre-step state; the engine does not.
  `RatesReadFreshRates`, `PitchRateAgreesIff` and
  `SchemesDifferUnderRollMoment` pin the difference down.
- `getState`'s four parameters are never written.
- No length or finiteness check exists on the motor commands or the vehicle
  constants.
- The airborne flag is write-only: `init` stores it, and neither `update` nor
  `setMotors` reads or changes it, so it has no effect on the dynamics.
- The engine's constructor never stores its argument in `_nmotors`. The loops
  of `setMotors` nevertheless read `_nmotors`. The model's constructor sets the
  motor count to the argument.
- Arrays passed by pointer (`position`, `rotation`, `motorvals`) are sequences,
  because the engine only reads them.
- The two loops of `setMotors` are the helper methods `ConvertAndSum` and
  `SquareSpeeds`. `SetMotors` calls them in the engine's order.

## Model

| member | source | states |
|---|---|---|
| Dynamics.MultirotorDynamics.constructor | Source/MulticopterSim/dynamics/NewMultirotorDynamics.hpp:83-86 | a fresh engine has an all-zero state, a speed buffer of `nmotors` slots, is grounded and has all five forces zero |
| Dynamics.MultirotorDynamics.X | Source/MulticopterSim/dynamics/NewMultirotorDynamics.hpp:47-50 | 1-based slot j reads slot j-1: 1, 3, 5 the position, 2, 4, 6 the velocity, 7, 9, 11 the Euler angles, 8, 10, 12 the body rates |
| Dynamics.MultirotorDynamics.Init | Source/MulticopterSim/dynamics/NewMultirotorDynamics.hpp:105-122 | the state becomes `InitState(position, rotation)`, the airborne flag becomes the argument (false by default), and forces and speeds are unchanged |
| Dynamics.MultirotorDynamics.Update | Source/MulticopterSim/dynamics/NewMultirotorDynamics.hpp:128-153 | the in-place slot-by-slot overwrite leaves exactly `Next(old state, forces)`, including the reads of already-overwritten slots; the airborne flag is unchanged |
| Dynamics.MultirotorDynamics.SetMotors | Source/MulticopterSim/dynamics/NewMultirotorDynamics.hpp:159-185 | the buffer holds the squared speeds, the forces equal `Mix(vehicle, motorvals)`, and the state and airborne flag are unchanged |
| Dynamics.MultirotorDynamics.ConvertAndSum | Source/MulticopterSim/dynamics/NewMultirotorDynamics.hpp:162-168 | after the first loop the buffer holds each command in rad/s and U1 is their left-to-right sum |
| Dynamics.MultirotorDynamics.SquareSpeeds | Source/MulticopterSim/dynamics/NewMultirotorDynamics.hpp:177-179 | the second loop replaces every buffer entry by its square, in place |
| Dynamics.MultirotorDynamics.GetState | Source/MulticopterSim/dynamics/NewMultirotorDynamics.hpp:190-192 | the accessor changes neither its four output arrays nor the engine |
| Dynamics.UpdateIgnoresTimeStep | Source/MulticopterSim/dynamics/NewMultirotorDynamics.hpp:128-153 | two engines in the same state with the same vehicle and forces end in the same state whatever time steps they are given |
| Dynamics.InitTwice | Source/MulticopterSim/dynamics/NewMultirotorDynamics.hpp:105-122 | a second `init` with the same arguments leaves the state the first one left |
| MotorMixer.SumOfSpeeds | Source/MulticopterSim/dynamics/NewMultirotorDynamics.hpp:162-168 | the accumulated U1 (before scaling) is the rpm-to-rad/s factor times the sum of the commands |
| MotorMixer.ThrustIsLinear | Source/MulticopterSim/dynamics/NewMultirotorDynamics.hpp:161-171 | U1 = factor * sum of commands * b: linear in the commands, since it sums raw speeds, not squares |
| MotorMixer.ThrustIncreasesWithOneCommand | Source/MulticopterSim/dynamics/NewMultirotorDynamics.hpp:161-171 | with b > 0 and maxrpm > 0, raising one command while the others stay fixed strictly raises U1 |
| MotorMixer.ThrustNonNegative | Source/MulticopterSim/dynamics/NewMultirotorDynamics.hpp:155-171 | commands in [0,1] and b >= 0 give U1 >= 0 |
| MotorMixer.ZeroCommandsGiveZeroThrust | Source/MulticopterSim/dynamics/NewMultirotorDynamics.hpp:162-179 | all-zero commands give U1 = 0 and an all-zero squared-speed buffer, for every vehicle |
| MotorMixer.ZeroCommandsGiveZeroForces | Source/MulticopterSim/dynamics/NewMultirotorDynamics.hpp:159-185 | if the mixing rules vanish on a zero buffer, all-zero commands give all five forces zero |
| StateIntegrator.ViewsDetermineState | Source/MulticopterSim/dynamics/NewMultirotorDynamics.hpp:43-44 | position, velocity, Euler angles and body rates together determine the 12-slot state, in both directions |
| StateIntegrator.InitState | Source/MulticopterSim/dynamics/NewMultirotorDynamics.hpp:105-122 | the initialised state has the given position and Euler angles and zero velocity and body rates |
| StateIntegrator.InitAtOwnPoseIsIdentity | Source/MulticopterSim/dynamics/NewMultirotorDynamics.hpp:105-122 | initialising a state at rest at its own pose gives that state back |
| StateIntegrator.InitIsIdempotent | Source/MulticopterSim/dynamics/NewMultirotorDynamics.hpp:105-122 | initialising at the pose of an initialised state gives the same state |
| StateIntegrator.Next | Source/MulticopterSim/dynamics/NewMultirotorDynamics.hpp:128-153 | the state after `update` in the engine's evaluation order: 12 slots, the new position and Euler angles are the pre-step velocity and body rates |
| StateIntegrator.LinearVelocitiesReadOldAngles | Source/MulticopterSim/dynamics/NewMultirotorDynamics.hpp:132-140 | the new linear velocities depend on the state only through the pre-step Euler angles |
| StateIntegrator.FreeFallWithoutThrust | Source/MulticopterSim/dynamics/NewMultirotorDynamics.hpp:132-140 | with U1 = 0 the new velocity is (0, 0, -g) |
| StateIntegrator.RatesReadFreshRates | Source/MulticopterSim/dynamics/NewMultirotorDynamics.hpp:144-152 | the new pitch rate applies the law to the NEW roll rate, and the new yaw rate to the NEW roll and pitch rates |
| StateIntegrator.SchemesAgreeOutsideCoupledRates | Source/MulticopterSim/dynamics/NewMultirotorDynamics.hpp:128-153 | the engine's order and the explicit scheme agree on every slot except the pitch and yaw rates |
| StateIntegrator.PitchAccelDifference | Source/MulticopterSim/dynamics/NewMultirotorDynamics.hpp:148 | the pitch law is affine in the roll rate it reads, with slope `Coupling` |
| StateIntegrator.PitchRateAgreesIff | Source/MulticopterSim/dynamics/NewMultirotorDynamics.hpp:144-148 | the new pitch rate equals the explicit one exactly when the roll rate did not change or the coupling is zero |
| StateIntegrator.SteadyRatesMakeSchemesAgree | Source/MulticopterSim/dynamics/NewMultirotorDynamics.hpp:128-153 | when the step leaves roll and pitch rates as they were, the engine's update equals the explicit scheme |
| StateIntegrator.SchemesDifferUnderRollMoment | Source/MulticopterSim/dynamics/NewMultirotorDynamics.hpp:144-148 | from rest in roll and pitch with a yaw rate, Iz != Ix, Jr = 0 and a roll moment, the two schemes give different pitch rates |

## Left out

- The factory `create` is only declared, so there is nothing to model.
- The destructor frees the speed buffer (with `delete` where `delete[]` is meant). Memory release is not modelled.
- IEEE double arithmetic is modelled as exact real arithmetic. Rounding, overflow, NaN and infinities are not modelled.
- cos and sin are uninterpreted functions. No claim is made about their values.
- The concrete vehicles (the classes that define b, d, m, l, Ix, Iy, Iz, Jr, maxrpm, u2, u3, u4 and omega) are not part of this model. They are parameters of type `Vehicle`.
- Source/MainModule/vehicles/Multirotor.hpp, Source/MainModule/vehicles/rockets/Rocket.h and Extras/nengo/newgui.py are callers and neighbours of the engine and are not part of this model.
- Dynamics.MultirotorDynamics.Update: requires m, Ix, Iy and Iz to be non-zero, because Dafny's real division needs a non-zero divisor. The engine divides without a check, and a zero divisor there yields an infinity or NaN.
- StateIntegrator.Next: the same non-zero divisor requirement as `Update`, for the same reason.
- Dynamics.MultirotorDynamics.SetMotors: requires exactly `nmotors` commands. The engine reads `_nmotors` entries from an unchecked pointer, and a shorter array is undefined behaviour.
- Dynamics.MultirotorDynamics.GetState: does not fill its outputs, as in the engine. Its contract therefore says only that nothing changes.
- Dynamics.MultirotorDynamics.constructor: sets the motor count, which the engine leaves uninitialised.
