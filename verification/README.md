# Time-step-driven molecular dynamics: the integration engine

This project models the particle-integration core of a two-part molecular-dynamics
code:

- **System 1** is a one-dimensional damped oscillator, a = (-k r - gamma v) / m,
  integrated by the explicit (position) Verlet scheme.
- **System 2** is a three-dimensional N-body engine with these parts:
  - unit-mass particles with a force accumulator;
  - the Velocity-Verlet integrator in two forms: the split form (`updatePositions`,
    recompute forces, `updateVelocities`) and the fused form (`step` with its
    pairwise force routine);
  - the fifth-order Gear predictor-corrector for the oscillator;
  - two galaxy classes: a softened-gravity pair force, O(N^2) force accumulation,
    rigid translations and centre-of-mass averages.

Arithmetic is over `real` instead of IEEE doubles, so every stepping formula is an
exact identity. Apache `Vector3D` is the datatype `Vectors.Vec3`. `Math.pow` with an
integral exponent is `RealMath.Pow`. `Math.sqrt` is a function parameter `sqrt`,
constrained by `RealMath.PositiveRoots` (a positive argument has a positive root).
That is the only property of the root the force law relies on. `RealMath.IsSqrt`
states what `Math.sqrt` computes, and `RealMath.SqrtPositive` derives `PositiveRoots` from it.

Each class that the source mutates is a Dafny class, and its methods are proved
against value-level functions:

- `Bodies.Particle`, whose state is seen as the value `Bodies.Body`;
- `Oscillator.Particle`;
- `ExplicitVerlet.Verlet`;
- `GearIntegrator.Gear`, whose `derivatives` is an `array<real>`;
- `GalaxyModel.Galaxy` and `Galaxy2Model.Galaxy2`.

A loop over a list of particles is specified through `Bodies.Snapshot`, the list of
the particles' states. The pairwise force loops are specified by
`PairForces.Accumulated`, which folds a table of pair vectors the way the nested
`i < j` loops visit it.

Some points where the model follows the code as written:

- **Galaxy force orientation.** The doc comment of `calculateForceFromP1ToP2` calls
  its result the force on p2, yet `calculateForces` and `forceCalculator` add it to
  p1 and its negation to p2. The model keeps that orientation. `TwoStarsRepel` shows
  its consequence: two stars with positive G are pushed apart.
- **Fused step force routine.** `VelocityVerlet2.calculateForcesBetweenParticles`
  calls `Particle.calculateForceFrom`, which the particle class does not define.
  `FusedVerlet` takes it as a parameter `law` of the two positions and G, h.
- **`oldAcceleration`.** The fused step uses an `oldAcceleration` field that the
  particle class does not declare. `Bodies.Particle` has it, with its setter.
- **Galaxy2 star count.** `Galaxy2.setStars` replaces the array but not
  `numberOfStars`. Both averages keep dividing by the stale count.
- **Test helper and accelerations.** The test helper's integration step
  (Sistema2/src/test/java/com/simulation2/integrators/IntegratorTestBase.java:133-142)
  recomputes forces but not accelerations. The reversibility and momentum lemmas are
  stated for any acceleration law of the positions. Keeping the accelerations fixed
  is the special case of a constant law.

## Model

| member | source | states |
|---|---|---|
| Oscillator.Particle.constructor | Sistema1/src/java/simulation1/Particle.java:8-12 | stores the given position, velocity and mass |
| Oscillator.Particle.SetPosition | Sistema1/src/java/simulation1/Particle.java:27-29 | replaces the position; velocity and the final mass are unchanged |
| Oscillator.Particle.SetVelocity | Sistema1/src/java/simulation1/Particle.java:31-33 | replaces the velocity; position and the final mass are unchanged |
| ExplicitVerlet.Verlet.constructor | Sistema1/src/java/simulation1/integrators/Verlet.java:17-21 | a fresh integrator holds no previous position (the NaN sentinel) |
| ExplicitVerlet.Verlet.Step | Sistema1/src/java/simulation1/integrators/Verlet.java:24-43 | integrator memory, position and velocity after the call are one StepState of those before: bootstrap if uninitialised, position 2r - prev + a dt^2, central-difference velocity, memory = old position; only position and velocity of the particle are written |
| ExplicitVerlet.Verlet.InitializePreviousPosition | Sistema1/src/java/simulation1/integrators/Verlet.java:45-54 | stores the Taylor back-step r0 - v0 dt + a0 dt^2 / 2 |
| ExplicitVerlet.FirstStepIsTaylorStep | Sistema1/src/java/simulation1/integrators/Verlet.java:26-39 | the first step from the sentinel lands on r0 + v0 dt + a0 dt^2 / 2, reports velocity v0 and remembers r0 |
| ExplicitVerlet.BootstrapOnlyOnce | Sistema1/src/java/simulation1/integrators/Verlet.java:26-39 | after any step the memory is the position before that step, so later steps never bootstrap again |
| ExplicitVerlet.DiscreteEquationOfMotion | Sistema1/src/java/simulation1/integrators/Verlet.java:30-37 | for every n >= 1 along a run, r(n+1) - 2 r(n) + r(n-1) = a(n) dt^2 with a = (-k r - gamma v) / m, and the reported velocity is (r(n+1) - r(n-1)) / (2 dt) |
| ExplicitVerlet.FreeParticleMovesUniformly | Sistema1/src/java/simulation1/integrators/Verlet.java:24-54 | with k = gamma = 0, n steps from the sentinel give position r0 + n v0 dt and velocity v0, and after the first step the memory is one displacement v0 dt behind |
| GearIntegrator.FactorialsAreFactorials | Sistema2/src/main/java/com/simulation2/integrators/Gear.java:16 | the FACTORIALS table holds n! in slot n, for the six slots |
| GearIntegrator.Gear.constructor | Sistema2/src/main/java/com/simulation2/integrators/Gear.java:29-39 | takes only the particle's mass; all six derivatives are 0, slots 2-5 being computed from the zero slots 0 and 1 |
| GearIntegrator.Gear.Predict | Sistema2/src/main/java/com/simulation2/integrators/Gear.java:41-51 | returns a fresh array whose slot i is the Taylor sum of derivatives[j] dt^(j-i) / (j-i)! over j = i..5, and leaves the derivatives alone |
| GearIntegrator.Gear.Correct | Sistema2/src/main/java/com/simulation2/integrators/Gear.java:53-59 | every slot i becomes predicted[i] + alpha_i deltaR2 i! / dt^i, with the fixed alpha table |
| GearIntegrator.Gear.Step | Sistema2/src/main/java/com/simulation2/integrators/Gear.java:62-74 | the derivatives become the corrected prediction, with deltaR2 = (oscillator acceleration at the predicted position and velocity - predicted slot 2) dt^2 / 2!; the particle argument is neither read nor written |
| GearIntegrator.PredictedTop | Sistema2/src/main/java/com/simulation2/integrators/Gear.java:45-46 | the top slot is predicted as itself |
| GearIntegrator.TaylorSumAtZero | Sistema2/src/main/java/com/simulation2/integrators/Gear.java:45-46 | with dt = 0 every partial Taylor sum of slot i is d[i] |
| GearIntegrator.PredictedAtZero | Sistema2/src/main/java/com/simulation2/integrators/Gear.java:41-51 | with dt = 0 the prediction is an exact copy of the derivatives |
| GearIntegrator.TaylorSumOfZeros | Sistema2/src/main/java/com/simulation2/integrators/Gear.java:45-46 | when the slots above i are 0 the Taylor sum of slot i is d[i] |
| GearIntegrator.UniformMotionPredicted | Sistema2/src/main/java/com/simulation2/integrators/Gear.java:41-51 | slots (r, v, 0, 0, 0, 0) are predicted as (r + v dt, v, 0, 0, 0, 0) |
| GearIntegrator.CorrectedAcceleration | Sistema2/src/main/java/com/simulation2/integrators/Gear.java:67-71 | after a step slot 2 is exactly (-k r0p - gamma r1p) / mass at the predicted position and velocity |
| GearIntegrator.RestIsFixedPoint | Sistema2/src/main/java/com/simulation2/integrators/Gear.java:62-74 | the all-zero derivatives are a fixed point of a step |
| Bodies.Particle.constructor | Sistema2/src/main/java/com/simulation2/models/Particle.java:13-23 | copies position and velocity; acceleration and force are zero |
| Bodies.Particle.AtRest | Sistema2/src/main/java/com/simulation2/models/Particle.java:26-32 | the particle starts at rest at the origin, with zero acceleration and force |
| Bodies.Particle.ResetForce | Sistema2/src/main/java/com/simulation2/models/Particle.java:35-37 | the force becomes zero; nothing else changes |
| Bodies.Particle.AddForce | Sistema2/src/main/java/com/simulation2/models/Particle.java:40-42 | the force becomes old force + f; nothing else changes |
| Bodies.Particle.UpdateAcceleration | Sistema2/src/main/java/com/simulation2/models/Particle.java:44-46 | acceleration = force (1 / mass), which with the unit mass is the force itself; nothing else changes |
| Bodies.Particle.KineticEnergy | Sistema2/src/main/java/com/simulation2/models/Particle.java:48-50 | m v^2 / 2 is non-negative and 0 for a particle at rest |
| Bodies.Particle.SetPosition | Sistema2/src/main/java/com/simulation2/models/Particle.java:83-85 | replaces only the position |
| Bodies.Particle.SetVelocity | Sistema2/src/main/java/com/simulation2/models/Particle.java:87-89 | replaces only the velocity |
| Bodies.Particle.SetAcceleration | Sistema2/src/main/java/com/simulation2/models/Particle.java:91-93 | replaces only the acceleration |
| Bodies.Particle.SetOldAcceleration | Sistema2/src/main/java/com/simulation2/integrators/VelocityVerlet2.java:13 | replaces only the saved acceleration |
| Bodies.MomentumIsVelocitySum | Sistema2/src/main/java/com/simulation2/models/Particle.java:9 | with unit masses the momentum is the sum of the velocities |
| VelocityVerletIntegrator.UpdatePositions | Sistema2/src/main/java/com/simulation2/integrators/VelocityVerlet.java:11-26 | each particle, from its own fields only, gets velocity v + a dt/2 and position r + (v + a dt/2) dt; acceleration, force, list length and order are kept |
| VelocityVerletIntegrator.UpdateVelocities | Sistema2/src/main/java/com/simulation2/integrators/VelocityVerlet.java:29-38 | each particle gets velocity v + a dt/2; nothing else changes |
| VelocityVerletIntegrator.ReversedTwice | Sistema2/src/test/java/com/simulation2/integrators/VelocityVerletTest.java:68-104 | negating the velocities twice restores the state |
| VelocityVerletIntegrator.DriftWithoutAcceleration | Sistema2/src/main/java/com/simulation2/integrators/VelocityVerlet.java:14-24 | with zero accelerations one updatePositions / updateVelocities pair moves each position by v dt and keeps v |
| VelocityVerletIntegrator.StepKeepsConsistent | Sistema2/src/test/java/com/simulation2/integrators/IntegratorTestBase.java:133-142 | after a split step the accelerations are the law evaluated at the new positions |
| VelocityVerletIntegrator.StepReversible | Sistema2/src/test/java/com/simulation2/integrators/VelocityVerletTest.java:68-104 | one step, negate velocities, one step gives back the start with negated velocities |
| VelocityVerletIntegrator.IterateReversible | Sistema2/src/test/java/com/simulation2/integrators/VelocityVerletTest.java:68-104 | a step that is its own inverse up to velocity reversal is so for n steps |
| VelocityVerletIntegrator.StepsReversible | Sistema2/src/test/java/com/simulation2/integrators/VelocityVerletTest.java:68-104 | N steps forward, negate velocities, N steps forward returns the original positions with negated velocities |
| VelocityVerletIntegrator.HalfKickSum | Sistema2/src/main/java/com/simulation2/integrators/VelocityVerlet.java:29-38 | updateVelocities adds (sum of accelerations) dt/2 to the sum of velocities |
| VelocityVerletIntegrator.DriftKickSum | Sistema2/src/main/java/com/simulation2/integrators/VelocityVerlet.java:11-26 | updatePositions adds (sum of accelerations) dt/2 to the sum of velocities |
| VelocityVerletIntegrator.StepConservesMomentum | Sistema2/src/test/java/com/simulation2/integrators/VelocityVerletTest.java:45-65 | with an acceleration law whose values sum to zero, a split step keeps the total momentum |
| VelocityVerletIntegrator.StepsConserveMomentum | Sistema2/src/test/java/com/simulation2/integrators/VelocityVerletTest.java:45-65 | the same over any number of steps, starting from accelerations given by the law |
| FusedVerlet.CalculateForcesBetweenParticles | Sistema2/src/main/java/com/simulation2/integrators/VelocityVerlet2.java:37-53 | only forces change; each becomes the sum over pairs of -law(pi, pj) for the first member and +law(pi, pj) for the second, whatever it held before |
| FusedVerlet.PairRows | Sistema2/src/main/java/com/simulation2/integrators/VelocityVerlet2.java:42-52 | the nested loops take the forces from zero to the accumulated reaction table; nothing else changes |
| FusedVerlet.PairRow | Sistema2/src/main/java/com/simulation2/integrators/VelocityVerlet2.java:43-51 | the inner loop adds row i of the table: -law(pi, pj) to particle i and +law(pi, pj) to each later particle j |
| FusedVerlet.Step | Sistema2/src/main/java/com/simulation2/integrators/VelocityVerlet2.java:10-34 | the drift loop, the force routine and the kick loop in that order: positions r + v dt + a dt^2/2 from the pre-step acceleration, new acceleration = fresh force / mass, velocity v + (a_old + a_new) dt/2 |
| FusedVerlet.DriftAll | Sistema2/src/main/java/com/simulation2/integrators/VelocityVerlet2.java:11-20 | each particle saves its acceleration as oldAcceleration and moves to r + v dt + a dt^2/2; nothing else changes |
| FusedVerlet.KickAll | Sistema2/src/main/java/com/simulation2/integrators/VelocityVerlet2.java:26-33 | each particle gets acceleration force / mass and velocity v + (a_old + a_new) dt/2; nothing else changes |
| FusedVerlet.PairForcesCancel | Sistema2/src/main/java/com/simulation2/integrators/VelocityVerlet2.java:42-52 | the forces the routine leaves sum to exactly zero |
| FusedVerlet.PairAccelerationsNetZero | Sistema2/src/main/java/com/simulation2/integrators/VelocityVerlet2.java:37-53 | as an acceleration law the routine keeps the length and always sums to zero |
| FusedVerlet.DriftAgrees | Sistema2/src/main/java/com/simulation2/integrators/VelocityVerlet2.java:16-18 | r + v dt + a dt^2/2 equals the split form r + (v + a dt/2) dt |
| FusedVerlet.KickAgrees | Sistema2/src/main/java/com/simulation2/integrators/VelocityVerlet2.java:28-31 | v + (a0 + a1) dt/2 equals two half kicks |
| FusedVerlet.FusedEqualsSplit | Sistema2/src/main/java/com/simulation2/integrators/VelocityVerlet2.java:16-31 | the fused step and updatePositions, recompute, updateVelocities agree exactly on positions, velocities and accelerations |
| FusedVerlet.FusedStepConservesMomentum | Sistema2/src/main/java/com/simulation2/integrators/VelocityVerlet2.java:28-32 | with accelerations summing to zero a fused step keeps the sum of velocities |
| FusedVerlet.FusedStepConsistent | Sistema2/src/main/java/com/simulation2/integrators/VelocityVerlet2.java:23-27 | after a step the accelerations are the routine's forces at the new positions |
| FusedVerlet.FusedStepsConserveMomentum | Sistema2/src/main/java/com/simulation2/models/Simulation2.java:57-65 | starting from accelerations set by the routine itself, any number of fused steps keeps the momentum |
| PairForces.AccumulatedCancels | Sistema2/src/main/java/com/simulation2/models/Galaxy.java:220-234 | adding a vector to one member of each pair and its negation to the other leaves forces summing to zero |
| PairForces.AccumulatedIsNetForce | Sistema2/src/main/java/com/simulation2/models/Galaxy.java:220-234 | the force left on particle k is the sum of its entries as first member plus the negated entries as second member |
| PairForces.TwoParticles | Sistema2/src/main/java/com/simulation2/models/Galaxy.java:220-234 | with two particles the first receives the pair vector and the second its negation |
| Stars.TranslateAll | Sistema2/src/main/java/com/simulation2/models/Galaxy.java:198-201 | every star moves by d; nothing else changes |
| Stars.BoostAll | Sistema2/src/main/java/com/simulation2/models/Galaxy.java:272-275 | every star's velocity grows by u; nothing else changes |
| Stars.ResetAll | Sistema2/src/main/java/com/simulation2/models/Galaxy.java:207-211 | every force becomes zero; nothing else changes |
| Stars.AddPairForces | Sistema2/src/main/java/com/simulation2/models/Galaxy.java:231-232 | the pair (i, j) adds fi to star i and its negation to star j, taking the row-i accumulation from column j to column j + 1 |
| Stars.SumPositions | Sistema2/src/main/java/com/simulation2/models/Galaxy.java:73-76 | returns the sum of the star positions |
| Stars.SumVelocities | Sistema2/src/main/java/com/simulation2/models/Galaxy.java:86-89 | returns the sum of the star velocities |
| Stars.CenterFollowsTranslation | Sistema2/src/main/java/com/simulation2/models/Galaxy.java:196-202 | moving every star by d moves the mean position by d |
| Stars.CenterVelocityFollowsBoost | Sistema2/src/main/java/com/simulation2/models/Galaxy.java:271-276 | after addGalaxyVelocity(u) the mean velocity grows by exactly u |
| GalaxyModel.GravityForces | Sistema2/src/main/java/com/simulation2/models/Galaxy.java:214-235 | only forces change; they become the accumulated pair forces |
| GalaxyModel.Galaxy.constructor | Sistema2/src/main/java/com/simulation2/models/Galaxy.java:44-49 | name, centre and stars as given; the star count matches the array |
| GalaxyModel.Galaxy.CalculateNewCenterPosition | Sistema2/src/main/java/com/simulation2/models/Galaxy.java:72-78 | the centre becomes the sum of positions divided by numberOfStars |
| GalaxyModel.Galaxy.GetCenterVelocity | Sistema2/src/main/java/com/simulation2/models/Galaxy.java:85-91 | returns the sum of velocities divided by numberOfStars and changes nothing |
| GalaxyModel.Galaxy.MoveGalaxy | Sistema2/src/main/java/com/simulation2/models/Galaxy.java:196-202 | centre and every star position move by d; velocities unchanged |
| GalaxyModel.Galaxy.AddGalaxyVelocity | Sistema2/src/main/java/com/simulation2/models/Galaxy.java:271-276 | every star velocity grows by u; positions unchanged |
| GalaxyModel.Galaxy.ResetForces | Sistema2/src/main/java/com/simulation2/models/Galaxy.java:207-211 | every star force becomes zero |
| GalaxyModel.Galaxy.CalculateForces | Sistema2/src/main/java/com/simulation2/models/Galaxy.java:214-235 | resets every force, then gives each star the accumulated softened-gravity pair vectors |
| GalaxyModel.GravityRows | Sistema2/src/main/java/com/simulation2/models/Galaxy.java:220-234 | the nested loops take the forces from zero to the accumulated softened-gravity table; nothing else changes |
| GalaxyModel.GravityRow | Sistema2/src/main/java/com/simulation2/models/Galaxy.java:221-233 | the inner loop adds row i: the pair force to star i and its negation to each later star j |
| GalaxyModel.GravityPair | Sistema2/src/main/java/com/simulation2/models/Galaxy.java:222-232 | one pair: computes calculateForceFromP1ToP2 on the stars' positions and unit masses and adds it to star i, its negation to star j |
| GalaxyModel.Galaxy.ForceCalculator | Sistema2/src/main/java/com/simulation2/models/Galaxy.java:24-42 | the same accumulation over a list, with G = 1.0 and h = 0.05, which separates every configuration |
| GalaxyModel.GalaxySofteningSeparates | Sistema2/src/main/java/com/simulation2/models/Galaxy.java:18 | with h = 0.05 every pair has a positive softened distance |
| GalaxyModel.ForceAntisymmetric | Sistema2/src/main/java/com/simulation2/models/Galaxy.java:253-264 | swapping the two (position, mass) arguments negates the force |
| GalaxyModel.CoincidentStarsExertNoForce | Sistema2/src/main/java/com/simulation2/models/Galaxy.java:258-263 | coincident positions give the zero vector when softened |
| GalaxyModel.ForceFromP1ToP2 | Sistema2/src/main/java/com/simulation2/models/Galaxy.java:253-264 | the force lies along the line through the two points, a multiple c (pos1 - pos2) with c positive exactly when G m1 m2 is positive: the pull felt by p2; ForceAntisymmetric, ForceTranslationInvariant and CoincidentStarsExertNoForce state its symmetries |
| GalaxyModel.ForceTranslationInvariant | Sistema2/src/main/java/com/simulation2/models/Galaxy.java:258-263 | the force depends only on pos2 - pos1 |
| GalaxyModel.GravityTableTranslationInvariant | Sistema2/src/main/java/com/simulation2/models/Galaxy.java:196-235 | moving the galaxy rigidly changes no pair force |
| GalaxyModel.GalaxyForcesCancel | Sistema2/src/main/java/com/simulation2/models/Galaxy.java:231-232 | after calculateForces the star forces sum to zero |
| GalaxyModel.TwoStarsRepel | Sistema2/src/main/java/com/simulation2/models/Galaxy.java:231-232 | with the orientation as written two stars receive forces pointing away from each other |
| Galaxy2Model.Galaxy2.constructor | Sistema2/src/main/java/com/simulation2/models/Galaxy2.java:22-27 | name, centre and stars as given; the count starts equal to the array length |
| Galaxy2Model.Galaxy2.SetStars | Sistema2/src/main/java/com/simulation2/models/Galaxy2.java:31-33 | replaces the array only; numberOfStars and the centre keep their values |
| Galaxy2Model.Galaxy2.CalculateNewCenterPosition | Sistema2/src/main/java/com/simulation2/models/Galaxy2.java:63-69 | the centre becomes the sum of positions divided by numberOfStars |
| Galaxy2Model.Galaxy2.GetCenterVelocity | Sistema2/src/main/java/com/simulation2/models/Galaxy2.java:76-82 | returns the sum of velocities divided by numberOfStars and changes nothing |
| Galaxy2Model.Galaxy2.MoveGalaxy | Sistema2/src/main/java/com/simulation2/models/Galaxy2.java:163-169 | centre and every star position move by d; velocities unchanged |
| Galaxy2Model.Galaxy2.AddGalaxyVelocity | Sistema2/src/main/java/com/simulation2/models/Galaxy2.java:177-182 | every star velocity grows by u; positions unchanged |
| Galaxy2Model.CenterVelocityAfterBoost | Sistema2/src/main/java/com/simulation2/models/Galaxy2.java:76-82 | after a boost by u the computed centre velocity grows by u (stars / count): exactly u only while the count matches the array |
| Galaxy2Model.CenterAfterMove | Sistema2/src/main/java/com/simulation2/models/Galaxy2.java:63-69 | after a move by d the computed centre moves by d (stars / count) |
| Vectors.MeanOverCount | Sistema2/src/main/java/com/simulation2/models/Galaxy2.java:68 | dividing by a count other than the number of stars scales the true mean by (stars / count) |
| Vectors.MeanShifted | Sistema2/src/main/java/com/simulation2/models/Galaxy.java:72-91 | adding d to every entry adds d to the mean |
| Vectors.NormSq | Sistema2/src/main/java/com/simulation2/models/Particle.java:48-50 | the squared norm is non-negative |
| RealMath.Pow | Sistema2/src/main/java/com/simulation2/models/Galaxy.java:260 | a non-zero base gives a non-zero power and a positive base a positive one, so the force's denominator is never zero |
| RealMath.SqrtPositive | Sistema2/src/main/java/com/simulation2/models/Galaxy.java:259 | a true square root sends a positive argument to a positive root |

## Left out

- Random initial conditions: `initializeStars`, `generateRandomUnitVector` and `generateRandomPositionInSphere` of both galaxy classes depend on `java.util.Random`, `log` and `cbrt`. The galaxy constructors take the star array as an argument instead.
- `setNumberOfStars` of both galaxy classes re-runs that random initialisation, so it is not modelled.
- File output and formatting (`CSVWriter`, `CSVWriter2`, `toFileString`, `toFileGalaxyHeader`, `toFileGalaxyStars`, `toString`) are not modelled.
- The driver loops (`Simulation`, `Simulation2`, `Simulationv2`, both `Main` classes) and the Python analysis scripts are not modelled.
- `Galaxy.integratorMethod` calls an integrator signature that does not exist, so it is not modelled.
- The empty Sistema2 `Verlet` and `Beeman` integrators are not modelled.
- Plain getters and `getAllParticles` (an array copy) are not modelled.
- `Particle.distanceTo` (Sistema2 `Particle.java`, a Euclidean distance through a square root) is not modelled: no operation of the integration core calls it.
- Energy tolerances and error orders depend on floating-point rounding and are not stated.
- `Math.sqrt` is a parameter with the property `PositiveRoots` (implied by `IsSqrt`); no closed form is given.
- Aliasing: every loop over particles requires the particle objects to be distinct (Bodies.Distinct). The source does not rule out a list holding one object twice.
- ExplicitVerlet.Verlet.Step: requires mass != 0 and dt != 0. Otherwise the source divides by zero and yields NaN or infinity.
- ExplicitVerlet.Verlet.InitializePreviousPosition: requires mass != 0, for the same reason.
- GearIntegrator.Gear.Correct: requires dt != 0, because the source divides by dt^i and gets infinity or NaN at dt = 0.
- GearIntegrator.Gear.Step: requires dt != 0, for the same reason.
- GearIntegrator.Gear.constructor: the integrator never loads the particle's position or velocity, as in the source, so all slots start at 0. Its mass is the particle's unit mass, which makes the division in the constructor safe.
- GalaxyModel.Galaxy.CalculateNewCenterPosition: requires numberOfStars != 0. The source divides by it and gives NaN for an empty galaxy.
- GalaxyModel.Galaxy.GetCenterVelocity: requires numberOfStars != 0, for the same reason.
- Galaxy2Model.Galaxy2.CalculateNewCenterPosition: requires numberOfStars != 0, for the same reason.
- Galaxy2Model.Galaxy2.GetCenterVelocity: requires numberOfStars != 0, for the same reason.
- GalaxyModel.Galaxy.CalculateForces: requires every pair of stars to be at a positive softened distance. With h = 0 and coincident stars the source computes 0/0 = NaN. ForceCalculator uses h = 0.05 and needs no such precondition.
- FusedVerlet.CalculateForcesBetweenParticles: Particle.calculateForceFrom is not part of this model. It is the parameter law, a function of the two positions, G and h.
- Bodies.Particle.KineticEnergy: states non-negativity and the value at rest, not that the energy is 0 only at rest.
- Vectors.NormSq: states only non-negativity.
