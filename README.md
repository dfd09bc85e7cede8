# openrider unicycle: a verified model

This project models the unicycle vehicle of openrider together with the base vehicle it extends
and the vehicle-type registry:

- **Vehicle** (`vehicle.dfy`, module `Vehicles`): the defaults every vehicle starts from (friction 0.99,
  gravity (0, 0.3), direction 1, distance 0, not slow, colour `#000`, head gear `hat`) and the
  slow-motion switch `setSlow`, specified by the function `SlowAfter`.
- **Registry** (`bike_constants.dfy`, module `BikeConstants`): `BIKE_MAP`, `SWITCH_MAP` and
  `RENDERER_MAP` over the keys `BMX`, `MTB` and `UNI`, with the vehicle and renderer classes as
  closed enumerations. The switch table is a successor function that cycles through the three types.
- **Unicycle arithmetic** (`uni_policy.dfy`, module `UniPolicy`): the pure parts of one physics tick.
  This covers the turn, the steering input and the wheel-speed smoothing, the crouch interpolation
  and its convergence, the one-sided rope correction, the placement offsets, and the key-log tables.
- **Unicycle** (`uni.dfy`, module `Unicycle`): the point masses (`Part`), the spring and rope
  constraints (`Spring`) and the vehicle itself (`Uni`) as classes whose methods update fields in
  place. The methods cover construction, `turn`, `updatePhysics`, `setBikeInitialState`,
  `getRider`, `clone` and the empty `setSlow` override. A rope's `fixedUpdate` and `clone` are there
  too.
- **Vectors** (`vectors.dfy`): a vector value `Vec` and a vector object `Vector`. The object is
  used for gravity, the one vector object that the code shown shares between two owners: a clone
  shares it with its original (`UNI.js:158`).

Each method is specified against the functions of `UniPolicy` or `Vehicles`. The properties of
the source are proved about those functions as lemmas. Some of these properties are listed here:

- two turns restore the direction;
- the wheel speed stays in [-0.5, 0.5];
- each crouch interpolation step (`UNI.js:105`) shrinks the gap to the crouch target by 0.75, and repeated steps reach any tolerance;
- the rope correction lies along the rope;
- three switches return to the starting vehicle type;
- `setSlow` is idempotent.

The clone builds new masses and constraints and re-links every endpoint to its own masses. It
rebinds the owners and the crash binding to itself and shares the track, runner and gravity. It
starts with an empty key log.

## Model

| member | source | states |
|---|---|---|
| Vehicles.Vehicle.constructor | class/bike/instance/Vehicle.js:4-18 | a new vehicle holds the given track and runner, friction 0.99, distance 0, direction 1, a new gravity vector (0, 0.3), not slow, parity 0, colour `#000` and head gear `hat` |
| Vehicles.Vehicle.SetSlow | class/bike/instance/Vehicle.js:25-30 | the slow flag becomes the argument; the parity is reset to 0 when slow motion is switched on from off or switched off, and kept otherwise |
| Vehicles.SlowAfter | class/bike/instance/Vehicle.js:26-29 | the slow flag becomes the argument; the parity is kept exactly when the vehicle was slow and stays slow, and is 0 otherwise |
| Vehicles.SlowOff | class/bike/instance/Vehicle.js:25-30 | `setSlow(false)` always leaves the vehicle fast with parity 0 |
| Vehicles.SlowOn | class/bike/instance/Vehicle.js:25-30 | `setSlow(true)` makes the vehicle slow: it restarts the parity when the vehicle was fast and keeps the parity when the vehicle was already slow |
| Vehicles.SlowIdempotent | class/bike/instance/Vehicle.js:25-30 | calling `setSlow` twice with the same argument has the effect of one call |
| BikeConstants.KeySetsAgree | class/constant/BikeConstants.js:9-11 | the three tables have exactly the keys `BMX`, `MTB`, `UNI` |
| BikeConstants.Name | class/constant/BikeConstants.js:9-11 | every vehicle type has a key under which `BIKE_MAP` holds that type, and the key is also in the switch and renderer tables |
| BikeConstants.Successor | class/constant/BikeConstants.js:10 | switching always changes the vehicle type and lands on a registered key |
| BikeConstants.Renderer | class/constant/BikeConstants.js:11 | the unicycle renderer is registered exactly for the unicycle, and the BMX renderer exactly for the BMX |
| BikeConstants.SwitchTable | class/constant/BikeConstants.js:10 | BMX switches to MTB, MTB to UNI, UNI to BMX |
| BikeConstants.SuccessorCycle | class/constant/BikeConstants.js:10 | three switches return to the starting type, and one or two never do |
| BikeConstants.SuccessorBijective | class/constant/BikeConstants.js:10 | switching is injective, and the independently defined predecessor is its two-sided inverse |
| BikeConstants.SwitchStaysInRegistry | class/constant/BikeConstants.js:9-11 | every switch target is a key of all three tables, and the switch table agrees with the successor applied to `BIKE_MAP` |
| UniPolicy.Turned | class/bike/instance/UNI.js:83 | a turn maps direction 1 to -1, -1 to 1, and only 0 to 0 |
| UniPolicy.TurnTwice | class/bike/instance/UNI.js:82-84 | turning twice restores the facing direction |
| UniPolicy.TurnKeepsFacing | class/bike/instance/UNI.js:82-84 | a turn keeps a direction of +1 or -1 within {+1, -1} and always changes it |
| UniPolicy.LeanSpeed | class/bike/instance/UNI.js:92 | the lean speed is 3 or 6, and it is 6 exactly when up is held |
| UniPolicy.RotateInput | class/bike/instance/UNI.js:98 | the steering input lies in [-1, 1]; it is 0 exactly when left and right agree, and 1 exactly when only left is held |
| UniPolicy.DirFactor | class/bike/instance/UNI.js:99 | the factor is 1 or 0.8, and for a unit direction it is 1 exactly when the input points the way the vehicle faces |
| UniPolicy.SpeedTarget | class/bike/instance/UNI.js:98-100 | with no steering input the target speed is 0; with a unit direction the target is 0.5 when steering forward, -0.4 when steering backward, and always within [-0.5, 0.5] |
| UniPolicy.SmoothSpeed | class/bike/instance/UNI.js:100 | the new wheel speed keeps 0.8 of its gap to the target and lies between the old speed and the target |
| UniPolicy.RotateAmount | class/bike/instance/UNI.js:101 | the head-to-wheel rotation is zero exactly when there is no steering input, and for a positive rotation factor it lies within 1 / rotation factor either way |
| UniPolicy.SpeedStaysBounded | class/bike/instance/UNI.js:98-100 | a wheel speed within [-0.5, 0.5] stays there whatever the input |
| UniPolicy.CrouchTarget | class/bike/instance/UNI.js:104 | the crouch target is the rest length when not crouching; for a non-negative rest length it lies between 0 and the rest length, strictly below a positive rest length when crouching |
| UniPolicy.CrouchStep | class/bike/instance/UNI.js:104-105 | the crouch step keeps three quarters of the distance to the target (0.8 of the rest length when crouching, the rest length otherwise) and lands between the old length and the target |
| UniPolicy.CrouchStepGap | class/bike/instance/UNI.js:104-105 | the signed gap to the crouch target is multiplied by 0.75 in one step |
| UniPolicy.CrouchAfterGap | class/bike/instance/UNI.js:104-105 | after n interpolation steps with the same input the signed gap is 0.75^n times the initial gap |
| UniPolicy.CrouchGapShrinks | class/bike/instance/UNI.js:104-105 | the gap to the crouch target never grows from one interpolation step to the next |
| UniPolicy.CrouchConverges | class/bike/instance/UNI.js:104-105 | repeated interpolation steps with the same input bring the length within any tolerance `tol` of the target after n steps once n * tol >= 3 * the initial gap |
| UniPolicy.RopeForce | class/bike/instance/UNI.js:18-23 | the correction is zero when the rope has no spring and no damping constant, and when the rope vector is zero |
| UniPolicy.RopeForceAlongAxis | class/bike/instance/UNI.js:18-23 | the rope correction is parallel to the rope; it is zero without spring and damping; without damping its dot product with the rope vector is (length - rest length) * spring constant * length |
| UniPolicy.RopeVelocity | class/bike/instance/UNI.js:12-28 | the first mass's velocity is unchanged below a separation of 1 or without spring and damping; otherwise it changes only along the rope, by the spring term when there is no damping |
| UniPolicy.EmptyKeyLog | class/bike/instance/UNI.js:69-76 | a new key log has an entry for each of the six inputs, and every entry is empty |
| UniPolicy.KeyLogCopy | class/bike/instance/UNI.js:195-201 | the clone's key-log copy has all six inputs; each entry other than crouch is a copy of the original's, and the crouch entry is a copy of the turn log |
| UniPolicy.KeyLogCopyLosesCrouch | class/bike/instance/UNI.js:200-201 | whenever the crouch log differs from the turn log, the copy loses the crouch log and so differs from the original |
| Unicycle.Part.Copy | class/bike/instance/UNI.js:168-178 | a cloned mass holds the same kind, positions, velocity, size and wheel speeds as its source, with the same owner and crash binding until the vehicle rebinds them |
| Unicycle.Spring.constructor | class/bike/instance/UNI.js:8-10 | a new rope or spring joins the two given masses in the given order |
| Unicycle.Spring.FixedUpdate | class/bike/instance/UNI.js:12-28 | a rope update sets the first mass's velocity to `RopeVelocity`: unchanged when the masses are closer than 1, and otherwise corrected along the rope; the second mass's velocity never changes, and nothing else is written |
| Unicycle.Spring.Copy | class/bike/instance/UNI.js:30-37 | a cloned rope has the same kind, rest lengths, spring and damping constants as its source and still joins the source's masses |
| Unicycle.NewMasses | class/bike/instance/UNI.js:46-64 | construction allocates a new hitbox, a new wheel and a new arm, three distinct objects with sizes 13, 13 and 4, with no crash binding on the wheel or the arm |
| Unicycle.NewConstraints | class/bike/instance/UNI.js:52-60 | construction allocates the head-to-wheel spring (hitbox to wheel, length 52), the head-to-arm rope (arm to hitbox, length 25) and the wheel-to-arm rope (arm to wheel, length 25, spring constant 0) |
| Unicycle.BindMasses | class/bike/instance/UNI.js:46-50 | the three masses get the unicycle as owner and the hitbox's crash binding targets it |
| Unicycle.CopyMasses | class/bike/instance/UNI.js:168-178 | the clone's three masses are new, pairwise distinct objects in the same state as the original's, and the wheel and arm carry the same crash binding as the original's (none, in a valid unicycle) |
| Unicycle.CopyConstraints | class/bike/instance/UNI.js:180-190 | the clone's constraints are new objects with the original's settings, re-linked to the clone's own masses in the original arrangement |
| Unicycle.Uni.constructor | class/bike/instance/UNI.js:41-80 | a new unicycle satisfies the invariant (which includes that only the hitbox carries a crash binding) and has the vehicle defaults with slow set, rotation factor 10, the lengths and sizes above, masses resting at their offsets from the track origin, and an empty key log |
| Unicycle.Uni.Turn | class/bike/instance/UNI.js:82-84 | the direction is negated and nothing else changes |
| Unicycle.Uni.UpdatePhysics | class/bike/instance/UNI.js:86-110 | one tick keeps the invariant, toggles the direction exactly when turn is pressed, and sets the wheel speed by `SmoothSpeed` towards `SpeedTarget` of the input; it advances the distance by the wheel's rotation speed, keeps the crouch rest length, and writes only those fields and the two lean lengths |
| Unicycle.Uni.TurnOnInput | class/bike/instance/UNI.js:87-89 | the direction is turned exactly when the turn input is held, and nothing else changes |
| Unicycle.Uni.LeanInput | class/bike/instance/UNI.js:91-96 | calls `Lean` on the head-to-wheel spring with 2 * 10 * up and on the head-to-arm rope with 10 * up, at the speed `LeanSpeed(up)` that `UpdatePhysics` passes (the effect of `Lean` is not modelled); only those two current lengths may change, and both rest lengths are kept |
| Unicycle.Uni.Steer | class/bike/instance/UNI.js:98-102 | the wheel speed closes a fifth of its gap to the input's target speed, it calls `Rotate` on the head-to-wheel spring with `RotateAmount` (whose effect is not modelled), and the distance advances by the wheel's rotation speed |
| Unicycle.Uni.CrouchLean | class/bike/instance/UNI.js:107-109 | calls `Lean` on the head-to-wheel spring with 5 when crouch is held (its effect is not modelled); only its current length may change, it is unchanged when crouch is not held, and the rest length is kept |
| Unicycle.Uni.InterpolateCrouch | class/bike/instance/UNI.js:104-105 | the head-to-wheel length becomes `CrouchStep` of its old value, so its gap to the crouch target is scaled by 0.75 |
| Unicycle.Uni.SetBikeInitialState | class/bike/instance/UNI.js:114-124 | the hitbox, wheel and arm rest (position, old and display position) at the start position plus (0,-15), (0,35) and (10,15) respectively, and nothing else is written |
| Unicycle.Uni.GetRider | class/bike/instance/UNI.js:127-149 | the head is at the hitbox and both hands are at the arm; the hip is midway between hitbox and wheel, the feet are placed symmetrically about the wheel by the pedal offset, the elbows are midway between arm and head, and each knee is midway between hip and foot |
| Unicycle.Uni.Clone | class/bike/instance/UNI.js:151-204 | the clone and all its masses and constraints are new objects, with every endpoint, owner and crash binding pointing into the clone; its three masses are distinct; it keeps the invariant, copies every scalar, shares track, runner and gravity, and has the original's mass states and constraint settings and an empty key log; the key-log copy built on the way is `KeyLogCopy` of the original's |
| Unicycle.Uni.CopyOf | class/bike/instance/UNI.js:151-193 | the object clone returns: three distinct masses, same settings, shared track, runner and gravity, new masses and constraints copied from the source and re-linked to one another, an empty key log |
| Unicycle.Uni.SetSlow | class/bike/instance/UNI.js:206-208 | the unicycle's override changes nothing, so a unicycle stays slow |
| Unicycle.Uni.ConstraintsStayInside | class/bike/instance/UNI.js:52-67 | every constraint of a unicycle joins two of its own points; there are three points and two joints, and the wheel-to-arm rope is not among the joints |

## Left out

- `Spring.js`, `Part.js`, `Wheel.js` and `Vector.js` are not part of this model.
  - `Spring.Lean` and `Spring.Rotate` therefore only state a frame, and that frame is assumed, not known: each may change its spring's current length and nothing else. A rotation could as well move the spring's masses. `Uni.UpdatePhysics`'s frame (no mass position changes during the steering part of a tick) and its clause that the head-to-wheel rest length is kept both depend on this assumption.
  - A new spring's spring and damping constants are left unspecified.
  - The clones of masses and springs are modelled as value copies (`Part.Copy`, `Spring.Copy`).
  - The symmetric spring's `fixedUpdate` and the integration step of a mass are not modelled.
- UniPolicy.CrouchAfterGap, UniPolicy.CrouchGapShrinks and UniPolicy.CrouchConverges: these lemmas repeat only the crouch interpolation of `UNI.js:105`. Within a real tick the same head-to-wheel length is also changed by the lean calls (`UNI.js:95`, `UNI.js:107-109`) and the rotate call (`UNI.js:101`), whose effect is in `Spring.js`. So the lemmas say nothing about the length from one whole tick to the next, and `Uni.UpdatePhysics` states nothing about that length after a tick.
- `Uni.LeanInput` and `Uni.CrouchLean` hold the lean calls of a tick (`UNI.js:95-96`, `UNI.js:107-109`). Since the effect of `Spring.Lean` is not modelled, they state only their frame, that the rest lengths are kept, and for `Uni.CrouchLean` that nothing changes without the crouch input.
- Numbers are reals, not IEEE-754 doubles, so rounding is not captured.
- `Spring.FixedUpdate`: the separation `getLength()` (a square root) is a parameter, required to be the non-negative root of the squared distance.
- `Uni.GetRider`: the pedal offset is a parameter. Lines 131-133 of `UNI.js` compute it with `Math.cos` and `Math.sin`, which are not modelled. They also pass a single argument to the `Vector` constructor, whose handling of a missing argument lives in `Vector.js`.
- Inheritance: Dafny traits are not used. `Uni` carries the base vehicle's fields itself and uses the same default constants as `Vehicles.Vehicle`. Masses and the wheel share class `Part`, and springs and ropes share class `Spring`; each distinguishes the two by a `kind`.
- Positions and velocities are vector values held in the fields of a mass, and only gravity is a vector object. So aliasing between any two vector objects is not captured, with the gravity sharing between clone and original as the one exception. The uncaptured cases are:
  - the three positions of one mass, which the code keeps apart with `.clone()` (`UNI.js:116-123`), as it does the rider's hands (`UNI.js:136-137`);
  - the velocities of two masses, which matters because a rope updates its first mass's velocity in place (`UNI.js:26`);
  - a clone's position and velocity vectors against the original's. Whether these are separate depends on the mass clones (`UNI.js:168`, `UNI.js:173`, `UNI.js:177`), which are modelled only by the value-copy stand-in `Part.Copy` above.
- The crash callback `() => this.runner.crash()` is modelled as the mass's `drive` reference to the vehicle whose runner it would notify. The runner's `crash` itself is not modelled.
- `Uni.Clone`: the source builds the clone with the ordinary constructor and then overwrites every field but `track`, `runner` and `keyLog`. The model builds it directly with `Uni.CopyOf`, which sets those three fields as the constructor does. Only the throw-away masses, springs and gravity vector that the ordinary constructor allocates are missing.
- `Uni.Clone`: the key-log copy that the source builds and then drops is returned as a ghost out-parameter, so the model can state what it holds.
- Key-log entries are strings that this core never inspects. The six key names are the enumeration `InputKey`.
- The renderer, the track (beyond its origin) and the runner (beyond its input flags) are not modelled.
- A clone is not fully alias-free, and the model states this as the code does it:
  - it shares the gravity vector with the original (`UNI.js:158`);
  - it starts with an empty key log and discards the copy it builds (`UNI.js:195-201`);
  - it performs no check that every constraint endpoint is one of the vehicle's points.
