# Patched-conic orbit simulator, modelled in Dafny

This project models the engine of a browser-based 2-D orbit simulator. Bodies move on Kepler orbits (ellipses and hyperbolas) around an orbital parent. In the patched-conic system, every step re-assigns each orbiter to the attractor whose sphere of influence contains it, recomputing its orbit from its position and velocity. The model covers:

- 2-D vectors (`Vectors`, vector/vector.js). These are values: every operation returns a new vector and leaves the receiver unchanged.
- The two generations of conic geometry:
  - `OrbitConic` (orbit/conic.js): a conic in its own frame.
  - `ConicsConic` and `ConicsEllipse` (conics/conic.js, conics/ellipse.js): conics placed in the world by a centre and an angle, which their `translate*` methods move in place.
- The orbit wrapper `Orbits` (orbit/orbit.js): axis fix-up, focus pinned to the attractor, tangent and velocity sign table, and the Kepler solver loops.
- The bodies of the patched-conic system (`StellarBodies`, stellarSystem/celestialBody.js and orbiter.js), with attractor.js as a variant tag:
  - global and local position and velocity;
  - orbit determination from the state vectors (vis-viva, eccentricity vector, direction from angular momentum, time since periapsis);
  - sphere-of-influence radius and the update step.
- The re-patching system `StellarSystems` (stellarSystem/stellarSystem.js): the attractor lists, the step order, and the choice of governing attractor.
- The first generation of bodies `EarlyBodies` (celestialBody/celestialBody.js and celestialBody/orbit.js).
- Unit conversion on mantissa/exponent pairs (`Convert`, units/convert.js) and the unit table (`Units`, units/units.js).
- The frame-step clamp of the animation driver (`Start`, util/start.js).

How the model represents the source:

- Numbers are exact reals.
- The transcendental functions of `Math` and π are fields of a record `JsMath.MathFns` handed to each operation. Their laws (for example sqrt(x)² = x for x ≥ 0, sin² + cos² = 1, sin 0 = 0, the bracketing of log10) are predicates that only the members needing them require.
- JavaScript's `%` is written out with truncation (`JsRem`).
- A property that may be absent or `undefined` is an `Option`.
- Bodies that point at their orbital parent are records in an arena, a sequence inside a class. The parent is an index, and a ghost rank that decreases from child to parent makes every walk up the chain terminate.
- Objects whose fields the source updates in place are classes: `ConicsConic.Conic`, `ConicsEllipse.Ellipse`, `Orbits.Orbit`, `EarlyBodies.Orbit`, `Convert.Converter`, `Start.FrameClock`, and the arenas `StellarBodies.Bodies`, `EarlyBodies.Bodies` and `StellarSystems.StellarSystem`.
- Loops of the source are `while`/`for` loops with invariants. These include getGlobalPosition, combineSplit, from/to, the Kepler loops and the two loops of the system's update.

Deliberate modelling choices:

- `normalise` and `getRotation` are called on vectors (orbit/orbit.js:141, conics/conic.js:162, stellarSystem/celestialBody.js:192, :230) but vector/vector.js does not define them. `Normalise` is scaling by 1/mod of a non-zero vector. `GetRotation` is the uninterpreted `rotationOf` of the math record.
- stellarSystem/stellarSystem.js:32 and :87 read `orbit.attractor`, a field the conics/conic.js orbit does not have. Each body therefore carries an explicit governing-attractor field `orbitAttractor`, which setInitialOrbit and recalculateOrbit set. This matches the field that orbit/orbit.js:43 provides.
  - As written, the guard at :32 always holds, so addCelestialBody puts every body on a circle around the root and discards the orbit and parent its constructor gave it (stellarSystem/celestialBody.js:56-61). That is the first row under "## Findings". `StellarSystems.StellarSystem.AddCelestialBodyAsWritten` models it, and `StellarSystems.StellarSystem.AddCelestialBody` is the corrected form the rest of the model uses.
  - As written, the test at :87 always holds too, so every orbiter's orbit is recomputed on every step, also around the attractor it already has. The model recomputes it only when the chosen attractor differs from `orbitAttractor`.
- stellarSystem/celestialBody.js:276 reads `this.orbit.j` before the check at :287. An existing orbit is therefore a precondition of `SphereOfInfluenceRadius` for a massive non-orbiter.

## Model

| member | source | states |
|---|---|---|
| Vectors.Vector.Mod | content/scripts/app/vector/vector.js:9-11 | given the square-root law, the length is non-negative, its square is the dot product of the vector with itself, and it is zero exactly at the origin |
| Vectors.Vector.Add | content/scripts/app/vector/vector.js:13-17 | the sum is componentwise: subtracting the same vector again returns the receiver |
| Vectors.Vector.Subtract | content/scripts/app/vector/vector.js:19-23 | the difference is the zero vector exactly when the two vectors are equal |
| Vectors.Vector.Scale | content/scripts/app/vector/vector.js:25-32 | no contract of its own; ScaleAlong, ScaleLength, ScaleUnit, ScaleByOne, ScaleDefaultsToUniform and ScaleProducts state what a scale does |
| Vectors.Vector.Rotate | content/scripts/app/vector/vector.js:34-41 | given sin² + cos² = 1, the rotated vector has the same squared length |
| Vectors.Vector.Dot | content/scripts/app/vector/vector.js:43-47 | no contract of its own; DotSelfNonNegative, DotSelfPositive and DotSymmetric state that v·v ≥ 0, that v·v > 0 off the origin, and that v·w = w·v |
| Vectors.Vector.GetAngle | content/scripts/app/vector/vector.js:49-56 | for two non-zero vectors, given the range of acos, the angle lies in [0, π] |
| Vectors.Vector.Normalise | content/scripts/app/orbit/orbit.js:141 | normalising a non-zero vector gives a unit vector that is parallel to it and points the same way |
| Vectors.DotSelfNonNegative | content/scripts/app/vector/vector.js:43-47 | v·v is never negative |
| Vectors.DotSelfPositive | content/scripts/app/vector/vector.js:43-47 | v·v is positive for every vector other than the origin |
| Vectors.DotSymmetric | content/scripts/app/vector/vector.js:43-47 | v·w = w·v |
| Vectors.ScaleLength | content/scripts/app/vector/vector.js:25-32 | a uniform scale by k multiplies the length by abs(k) |
| Vectors.ScaleUnit | content/scripts/app/vector/vector.js:25-32 | scaling a unit vector by k gives length abs(k) and dot product k with the vector |
| Vectors.ScaleByOne | content/scripts/app/vector/vector.js:25-32 | scaling by 1 returns the same vector |
| Vectors.ScaleDefaultsToUniform | content/scripts/app/vector/vector.js:25-32 | scale(k) with y omitted equals scale(k, k) |
| Vectors.ScaleAlong | content/scripts/app/vector/vector.js:25-32 | a uniform scale by k stays on the vector's line (zero cross product), with dot product k·abs(v)² |
| Vectors.ScaleProducts | content/scripts/app/vector/vector.js:25-32 | a uniform scale of v by k multiplies both its dot and its cross product with any w by k |
| Vectors.NormaliseUnit | content/scripts/app/orbit/orbit.js:141 | a unit vector is its own normalisation |
| Vectors.NormaliseIdempotent | content/scripts/app/orbit/orbit.js:141 | normalising twice gives the same vector as normalising once |
| Vectors.RotateKeepsLength | content/scripts/app/vector/vector.js:34-41 | given sin² + cos² = 1, a rotation keeps mod() |
| Vectors.RotateAngle | content/scripts/app/vector/vector.js:34-41 | the vector rotated by a has dot product cos a·abs(v)² and cross product sin a·abs(v)² with the original, so it makes angle a with it |
| Vectors.RotateCoordinates | content/scripts/app/vector/vector.js:34-41 | given sin² + cos² = 1, a vector turned by a has its old coordinates along the turned axes (cos a, sin a) and (−sin a, cos a) |
| Vectors.RotateBoth | content/scripts/app/vector/vector.js:34-41 | given sin² + cos² = 1, turning two vectors by the same angle keeps their dot and cross products |
| Vectors.VerticalUnit | content/scripts/app/conics/conic.js:150-162 | (0, ±1) has length 1 and is its own normalisation |
| Vectors.RotateByZero | content/scripts/app/vector/vector.js:34-41 | rotate(0) is the identity |
| Vectors.AddCommutes | content/scripts/app/vector/vector.js:13-17 | v.add(w) equals w.add(v) |
| Vectors.AngleSymmetric | content/scripts/app/vector/vector.js:49-56 | the angle from v to w equals the angle from w to v |
| OrbitConic.Conic.FocalRadius | content/scripts/app/orbit/conic.js:66-87 | the distance from the main focus is positive on an ellipse, because 1 + e·cos f cannot vanish for 0 ≤ e < 1 |
| OrbitConic.Conic.PointAt | content/scripts/app/orbit/conic.js:59-92 | the point at eccentric anomaly E lies abs(r) from the main focus, where r is the focal radius, because it is (r, 0) turned by the true anomaly |
| OrbitConic.Conic.CentrePoint | content/scripts/app/orbit/conic.js:104-107 | the point relative to the centre, minus the main focus, is the point relative to the focus |
| OrbitConic.Conic.Gradient | content/scripts/app/orbit/conic.js:94-123 | there is no slope exactly when sin E = 0; otherwise the slope g makes (1, g) orthogonal to the normal of x²/a² ± y²/b² = 1 at the centre-relative point |
| OrbitConic.Direction | content/scripts/app/orbit/conic.js:109-120 | the tangent direction is never zero: (0, 1) at an apsis and (1, g) elsewhere, orthogonal to the normal |
| OrbitConic.SlopeLaw | content/scripts/app/orbit/conic.js:113-119 | both slope formulas are tangent to their curve: (1, slope) is orthogonal to the normal (b²x, ±a²y) |
| OrbitConic.SlopesOpposite | content/scripts/app/orbit/conic.js:113-119 | for the same axes and point, the ellipse and hyperbola slopes are negatives of each other |
| OrbitConic.EllipseRadiusPositive | content/scripts/app/orbit/conic.js:73 | a(1 − e²)/(1 + e·x) is positive for a > 0, 0 ≤ e < 1 and x ≥ −1 |
| OrbitConic.NewConic | content/scripts/app/orbit/conic.js:14-57 | the constructor keeps a and b, and c ≥ 0 with c² = a² − b² (ellipse) or a² + b² (hyperbola); the foci mirror each other on the x axis, with the main focus at (c, 0) for an ellipse and (−c, 0) for a hyperbola; the eccentricity is in [0, 1] for an ellipse, 0 exactly when a = b and 1 exactly when b = 0, and at least 1 for a hyperbola, 1 exactly when b = 0 |
| OrbitConic.EllipseShape | content/scripts/app/orbit/conic.js:30-32 | for 0 ≤ b ≤ a, the focal distance is non-negative, squares to a² − b², and c/a lies in [0, 1] |
| OrbitConic.HyperbolaShape | content/scripts/app/orbit/conic.js:33-36 | for a hyperbola, c² = a² + b² and sqrt(1 + b²/a²) ≥ 1 |
| OrbitConic.ProperShape | content/scripts/app/orbit/conic.js:45-55 | with b > 0, e < 1 exactly for an ellipse, and e is never 1 |
| OrbitConic.EllipsePeriapsis | content/scripts/app/orbit/conic.js:59-92 | at E = 0 an ellipse's point is (a(1 − e), 0) from the main focus, i.e. the vertex (a, 0) relative to the centre, which is the periapsis |
| OrbitConic.EllipseTrueAnomalyZero | content/scripts/app/orbit/conic.js:70 | on an ellipse the true anomaly at E = 0 is 0 |
| OrbitConic.FocalRadiusAtApsis | content/scripts/app/orbit/conic.js:73 | with cos f = 1, a(1 − e²)/(1 + e) = a(1 − e) |
| OrbitConic.AxisPointLength | content/scripts/app/orbit/conic.js:89 | (x, 0) has length abs(x) |
| ConicsConic.Upright | content/scripts/app/conics/conic.js:25-34 | the fix-up keeps the multiset of semi-axes; it changes something exactly for an ellipse with n > j, which it turns into (n, j, angle + π/2); it keeps the sign of j; afterwards an ellipse has n ≤ j |
| ConicsConic.FocalDistanceSquare | content/scripts/app/conics/conic.js:36-43 | the focal distance is non-negative and squares to j² − n² for an ellipse (when abs(n) ≤ j) and to j² + n² for a hyperbola |
| ConicsConic.EccentricityRange | content/scripts/app/conics/conic.js:68-76 | for axes the constructor accepts, the eccentricity lies in [0, 1] for an ellipse, 0 exactly for a circle and below 1 exactly when n > 0; for a hyperbola it is at least 1, and 1 exactly when n = 0 |
| ConicsConic.FocusOffsetLength | content/scripts/app/conics/conic.js:51-57 | the offset from the centre to the main focus has the focal distance as its length |
| ConicsConic.TangentHeading | content/scripts/app/conics/conic.js:149-160 | the unnormalised tangent is never zero; at an apsis (sin E = 0) it is (0, −1) when abs(E) % 2π < π under JavaScript's remainder and (0, 1) otherwise; elsewhere its x is ±1, and −1 exactly under the same condition; it is orthogonal to the normal (n cos E, j sin E) and parallel to the derivative (−j sin E, n cos E) of the curve (j cos E, n sin E) |
| ConicsConic.SlopeCancels | content/scripts/app/conics/conic.js:152 | the slope −(n cos E)/(j sin E) cancels the normal: n cos E + slope·j sin E = 0 |
| ConicsConic.EccentricAnomalyOf | content/scripts/app/conics/conic.js:165-184 | for axes the constructor accepts, the eccentric anomaly at true anomaly 0 is 0 on both branches |
| ConicsConic.PeriapsisAnomaly | content/scripts/app/conics/conic.js:174-181 | at f = 0 both the atan2 branch and the acosh branch give 0 |
| ConicsConic.Conic.constructor | content/scripts/app/conics/conic.js:15-44 | the centre is (x, y); the axes and angle are the upright fix-up of the arguments; the focal distance is computed from the final axes; for j ≠ 0 and n ≥ 0 the result is a valid conic (an ellipse has n ≤ j) |
| ConicsConic.Conic.Foci | content/scripts/app/conics/conic.js:46-66 | the centre is the midpoint of the foci (their sum is 2·coords), and the main focus is the centre plus the focus offset |
| ConicsConic.Conic.Eccentricity | content/scripts/app/conics/conic.js:68-76 | on a valid conic, the eccentricity lies in [0, 1] for an ellipse, 0 exactly for a circle and below 1 exactly when n > 0; for a hyperbola it is at least 1, and 1 exactly when n = 0 (EccentricityRange) |
| ConicsConic.Conic.EccentricAnomaly | content/scripts/app/conics/conic.js:165-184 | on a valid conic, true anomaly 0 gives eccentric anomaly 0 |
| ConicsConic.Conic.TranslateTo | content/scripts/app/conics/conic.js:78-82 | the centre becomes v |
| ConicsConic.Conic.Translate | content/scripts/app/conics/conic.js:84-88 | the centre and both foci move by exactly v |
| ConicsConic.Conic.TranslateFocusTo | content/scripts/app/conics/conic.js:90-101 | afterwards the main focus is v, and the vector from the main focus to the other one is unchanged (j, n and angle are constants) |
| ConicsConic.Conic.Radius | content/scripts/app/conics/conic.js:112-132 | the distance from the main focus is positive on a proper ellipse |
| ConicsConic.Conic.PointAt | content/scripts/app/conics/conic.js:103-140 | the point lies abs(r) from the main focus, where r is the focal radius at E |
| ConicsConic.Conic.TangentAt | content/scripts/app/conics/conic.js:142-163 | the tangent is a unit vector parallel to the heading turned by the angle and pointing the same way, so it is parallel to the turned derivative of (j cos E, n sin E) at E, which is tangent to the placed conic only for an ellipse (see "## Left out" for a hyperbola); at an apsis it is exactly the turned heading (0, ±1) |
| ConicsConic.UnitTurned | content/scripts/app/conics/conic.js:162 | a non-zero heading, normalised and then rotated, has length 1 |
| ConicsConic.ApsisHeadingUnit | content/scripts/app/conics/conic.js:149-162 | at an apsis the heading is already a unit vector, so normalising keeps it |
| Vectors.TurnedAlong | content/scripts/app/conics/conic.js:162 | a non-zero heading d parallel to w, normalised and turned by the angle, is parallel to d turned with a positive dot product, and parallel to w turned |
| ConicsConic.AxisLength | content/scripts/app/conics/conic.js:137 | (r, 0) has length abs(r) |
| ConicsConic.RadiusPositive | content/scripts/app/conics/conic.js:118 | j(1 − e²)/(1 + e·x) is positive for j > 0, 0 ≤ e < 1 and x ≥ −1 |
| ConicsEllipse.Sorted | content/scripts/app/conics/ellipse.js:22-30 | the swap keeps the multiset of semi-axes, always leaves the first at least the second, changes something exactly when n > j, and then adds π/2 to the angle |
| ConicsEllipse.AxisPointOnEllipse | content/scripts/app/conics/ellipse.js:76-86 | given sin² + cos² = 1, the unrotated point (j cos E, n sin E) satisfies x²/j² + y²/n² = 1 |
| ConicsEllipse.NormalAngle | content/scripts/app/conics/ellipse.js:116-120 | the normalised argument lies in [0, 2π) and differs from f by a whole number of turns |
| ConicsEllipse.Ellipse.constructor | content/scripts/app/conics/ellipse.js:12-34 | the centre is (x, y); the axes and angle are the sorted arguments; the focal distance is sqrt(j² − n²) of the final axes, with n ≤ j |
| ConicsEllipse.Ellipse.Foci | content/scripts/app/conics/ellipse.js:36-45 | the foci are the centre plus and minus the same offset, so they are symmetric about the centre |
| ConicsEllipse.Ellipse.Eccentricity | content/scripts/app/conics/ellipse.js:47-49 | on a valid ellipse with n > 0, the eccentricity a/j lies in [0, 1) (EllipseEccentricity) |
| ConicsEllipse.Ellipse.TranslateTo | content/scripts/app/conics/ellipse.js:51-55 | the centre becomes v |
| ConicsEllipse.Ellipse.Translate | content/scripts/app/conics/ellipse.js:57-61 | the centre moves by exactly v |
| ConicsEllipse.Ellipse.TranslateFocusTo | content/scripts/app/conics/ellipse.js:63-74 | afterwards the main focus is v, and the vector between the foci is unchanged |
| ConicsEllipse.Ellipse.PointAt | content/scripts/app/conics/ellipse.js:76-86 | the point is (j cos E, n sin E) in the frame of the major axis turned by the angle: its coordinates along (cos angle, sin angle) and (−sin angle, cos angle) are j cos E and n sin E, so with AxisPointOnEllipse it lies on the turned ellipse; its length is that of (j cos E, n sin E) |
| ConicsEllipse.Ellipse.EccentricAnomaly | content/scripts/app/conics/ellipse.js:111-132 | given the range of acos, E lies in [0, π] when the normalised f is at most π, and in [π, 2π] otherwise |
| ConicsEllipse.TurnKeepsLength | content/scripts/app/conics/ellipse.js:85 | given sin² + cos² = 1, a rotation by the angle keeps the length |
| ConicsEllipse.EllipseEccentricity | content/scripts/app/conics/ellipse.js:33-49 | with 0 < n ≤ j, the eccentricity a/j lies in [0, 1) |
| Orbits.SwapAxes | content/scripts/app/orbit/orbit.js:46-54 | the fix-up keeps the multiset of semi-axes and swaps exactly for an ellipse with b > a; an unswapped orbit keeps its angle; a swapped one gets (angle + π/2) % 2π, which lies in [0, 2π) for a non-negative angle; the result is a pair of axes the conic accepts |
| Orbits.FociAt | content/scripts/app/orbit/orbit.js:95-106 | when the shape's foci mirror each other, the orbit's centre is the midpoint of its foci |
| Orbits.FociFollowCentre | content/scripts/app/orbit/orbit.js:69-106 | moving the centre by v moves both foci by v, so the vector between them is unchanged |
| Orbits.OrbitPoint | content/scripts/app/orbit/orbit.js:108-115 | the point does not depend on coords: it is the shape's point turned by the angle and lies at the focal radius from the main focus |
| Orbits.Heading | content/scripts/app/orbit/orbit.js:135-139 | the heading is d or −d, reversed exactly when leaving periapsis, and stays on d's line |
| Orbits.Orient | content/scripts/app/orbit/orbit.js:135-146 | a non-zero direction d, reversed when leaving, normalised and turned by the angle, is a unit vector that is parallel to the turned heading with a positive dot product with it, so it lies on the line of d turned by the angle |
| Orbits.TangentAsWritten | content/scripts/app/orbit/orbit.js:117-147 | the tangent built from the gradient is undefined (NaN in JavaScript, None here) exactly when sin E = 0; otherwise it is a unit vector on the line of (1, g) turned by the angle, where g is the slope, pointing the same way as the turned heading (reversed when leaving periapsis) |
| Orbits.Tangent | content/scripts/app/orbit/orbit.js:117-147 | the tangent with the apsis case repaired is a unit vector for every E, on the line of the conic's direction turned by the angle and pointing the same way as the turned heading; it equals the written tangent wherever sin E ≠ 0, and at an apsis it is the minor-axis direction (0, ±1), reversed when leaving periapsis, turned by the angle |
| Orbits.TangentWhereDefined | content/scripts/app/orbit/orbit.js:125-146 | where sin E ≠ 0, the written tangent is the oriented conic direction |
| Orbits.TangentAtApsis | content/scripts/app/orbit/orbit.js:125-146 | at an apsis, the oriented conic direction is (0, ±1) turned by the angle |
| Orbits.ApsisOrient | content/scripts/app/orbit/orbit.js:135-146 | orienting the vertical direction (0, 1) gives (0, −1) when leaving and (0, 1) otherwise, turned by the angle |
| Orbits.DirectionFromGradient | content/scripts/app/orbit/conic.js:109-122 | the conic direction is (0, 1) when there is no gradient and (1, g) for a gradient g |
| Orbits.UnitTangent | content/scripts/app/orbit/orbit.js:141-144 | a non-zero heading, normalised and rotated, has length 1 |
| Orbits.ApsisHeading | content/scripts/app/orbit/orbit.js:135-141 | the vertical heading, reversed or not, is already a unit vector, so normalising keeps it |
| Orbits.UnitAxis | content/scripts/app/orbit/orbit.js:141 | (0, ±1) has length 1 and is its own normalisation |
| Orbits.UnitAxisLength | content/scripts/app/orbit/orbit.js:141 | (0, ±1) has length 1 |
| Orbits.VisVivaSpeed | content/scripts/app/orbit/orbit.js:164-171 | where u(2/r − 1/a) ≥ 0, the speed is non-negative and its square is u(2/r − 1/a) |
| Orbits.Velocity | content/scripts/app/orbit/orbit.js:150-191 | the velocity lies on the line of the repaired tangent (Tangent), and its signed length along it is the vis-viva speed, negated exactly when (a > 0 and anticlockwise) or (a < 0 and not anticlockwise); so its length is the speed, and for a positive speed it points against the tangent exactly in those cases. At an apsis the source's velocity is NaN, because its tangent is |
| Orbits.CubeNonZero | content/scripts/app/orbit/orbit.js:212 | a³ is non-zero for a non-zero a |
| Orbits.MeanMotion | content/scripts/app/orbit/orbit.js:212 | for u ≥ 0, n = sqrt(u/abs(a³)) is non-negative and n²·abs(a³) = u |
| Orbits.MeanAnomaly | content/scripts/app/orbit/orbit.js:215-227 | M is 0 at the epoch; after the epoch with n > 0 it is negative exactly when the same sign table as orbitalVelocity negates |
| Orbits.ElapsedSign | content/scripts/app/orbit/orbit.js:215 | n(t − epoch) is positive for n > 0 after the epoch |
| Orbits.HyperbolicDenominator | content/scripts/app/orbit/orbit.js:240 | the Newton step's denominator e·cosh E − 1 is positive for e > 1 |
| Orbits.KeplerIterate | content/scripts/app/orbit/orbit.js:231-243 | every elliptic iterate after the first lies within e of the mean anomaly M |
| Orbits.EllipticStepNearMean | content/scripts/app/orbit/orbit.js:234-236 | one fixed-point step M + e·sin E lies within e of M, whatever E is |
| Orbits.KeplerFixedPoint | content/scripts/app/orbit/orbit.js:231-243 | at M = 0, both iterations started from E = 0 stay at 0 for any number of steps |
| Orbits.EpochAnomaly | content/scripts/app/orbit/orbit.js:212-243 | at the epoch the mean anomaly is 0 and so is the solved eccentric anomaly |
| Orbits.SolveKepler | content/scripts/app/orbit/orbit.js:231-243 | the loop computes iterM fixed-point steps (e < 1) or Newton steps (otherwise) from E = M |
| Orbits.Orbit.constructor | content/scripts/app/orbit/orbit.js:30-66 | each option or its default is copied; the axes and angle are the swap fix-up; the shape is the conic of those axes and e is its eccentricity; the main focus lies on the attractor's global position |
| Orbits.Orbit.TranslateTo | content/scripts/app/orbit/orbit.js:69-73 | the centre becomes v |
| Orbits.Orbit.Translate | content/scripts/app/orbit/orbit.js:75-79 | the centre and both foci move by exactly v |
| Orbits.Orbit.TranslateFocusTo | content/scripts/app/orbit/orbit.js:81-92 | afterwards the main focus is v; the centre moved by v minus the old main focus; the shape and angle are untouched (not in its frame) |
| Orbits.Orbit.Foci | content/scripts/app/orbit/orbit.js:95-106 | when the shape's foci mirror each other, the orbit's centre is the midpoint of its foci (FociAt) |
| Orbits.Orbit.PointAt | content/scripts/app/orbit/orbit.js:108-115 | the point relative to the main focus lies at the focal radius from it (OrbitPoint) |
| Orbits.Orbit.OrbitalVelocity | content/scripts/app/orbit/orbit.js:150-191 | the velocity lies on the line of the repaired tangent (Tangent) at E, with the vis-viva speed for the orbiter's distance as its signed length along it, negated as the sign table says (Velocity); its length is that speed. At an apsis the source's velocity is NaN |
| Orbits.Orbit.EccentricAnomalyAtTime | content/scripts/app/orbit/orbit.js:197-245 | with b > 0 the eccentricity avoids 1; E is iterM solver steps from the signed mean anomaly; at the epoch E = 0 |
| EarlyBodies.FromOptions | content/scripts/app/celestialBody/celestialBody.js:9-53 | each field is the option when given and the default otherwise (position (100, 0), mass and size 50, speed π/3, clockwise); the new body has no orbit and no times yet |
| EarlyBodies.AxesWithin | content/scripts/app/celestialBody/orbit.js:41 | for a random value in [0, 1), once the larger axis is first, the semi-major axis lies in [r, 1.1r) and the semi-minor axis in [0.9r, r] |
| EarlyBodies.ScaledWithin | content/scripts/app/celestialBody/orbit.js:41 | a factor 0.2·random + 0.9 scales r into [0.9r, 1.1r) |
| EarlyBodies.Orbit.constructor | content/scripts/app/celestialBody/orbit.js:25-43 | anticlockwise is the option or false; r is the child's distance from its parent and speed·r = 100; the ellipse is fresh and centred on the parent's global position, with axes within 10 % of r and angle 2π·random |
| EarlyBodies.Orbit.Draw | content/scripts/app/celestialBody/orbit.js:45-51 | the ellipse's main focus moves onto the parent's global position and the vector between the foci is kept |
| EarlyBodies.Ancestors | content/scripts/app/celestialBody/celestialBody.js:64-76 | every body on the parent chain is in range and ranked below the body |
| EarlyBodies.GlobalIsChainSum | content/scripts/app/celestialBody/celestialBody.js:64-76 | the global position is the sum of the coordinates of the body and every ancestor, and no body is its own ancestor |
| EarlyBodies.AppendKeepsGlobals | content/scripts/app/celestialBody/celestialBody.js:40-76 | adding a body changes no global position of the bodies already there |
| EarlyBodies.MeanMotion | content/scripts/app/celestialBody/celestialBody.js:95-101 | n = 2π/P is positive and satisfies Kepler's third law n²j³ = G(M + m) |
| EarlyBodies.PeriodArgument | content/scripts/app/celestialBody/celestialBody.js:98 | the argument of the period's square root is positive |
| EarlyBodies.PeriodLaw | content/scripts/app/celestialBody/celestialBody.js:98-101 | from P² = (4π²/μ)·j³ and n = 2π/P follows n²j³ = μ, with P and n positive |
| EarlyBodies.Advance | content/scripts/app/celestialBody/celestialBody.js:79-131 | without an orbit nothing changes; with one, only the times and the position change, tP stays (0 after the first update), and t grows by dt from its previous value (0 the first time); AdvanceBy and AdvanceAtEpoch state the new position |
| EarlyBodies.DirectionIsUnit | content/scripts/app/celestialBody/celestialBody.js:119-123 | the major-axis direction (cos θ, sin θ) has length 1 |
| EarlyBodies.ShiftCancels | content/scripts/app/celestialBody/celestialBody.js:123 | adding the centre and subtracting the main focus is subtracting the focal offset |
| EarlyBodies.FocusRelative | content/scripts/app/celestialBody/celestialBody.js:116-123 | the new position is the turned axis point less the focal offset, whatever the ellipse's centre |
| EarlyBodies.Periapsis | content/scripts/app/celestialBody/celestialBody.js:116-123 | at E = 0 the position is (j − a) along the major axis, at distance j − a from the parent |
| EarlyBodies.AlongAxis | content/scripts/app/celestialBody/celestialBody.js:116-123 | a point k along the major axis is at distance abs(k) |
| EarlyBodies.AnomalyAt | content/scripts/app/celestialBody/celestialBody.js:100-114 | the eccentric anomaly is 0 at the periapsis time |
| EarlyBodies.MeanAnomalySign | content/scripts/app/celestialBody/celestialBody.js:103-107 | M = n(t − tP), negated exactly for an anticlockwise orbit |
| EarlyBodies.AdvanceBy | content/scripts/app/celestialBody/celestialBody.js:79-131 | the updated body has the new times and the point of the eccentric anomaly at t, relative to the main focus |
| EarlyBodies.AdvanceAtEpoch | content/scripts/app/celestialBody/celestialBody.js:79-131 | an update landing at the periapsis time puts the body at (j − a) along the major axis |
| EarlyBodies.PositionAsWritten | content/scripts/app/celestialBody/celestialBody.js:116-123 | the position as written is the axis point turned by the angle twice, then less the focal offset |
| EarlyBodies.DoubleTurnMissesPeriapsis | content/scripts/app/celestialBody/celestialBody.js:116-123 | with angle π/2, j = 2, n = 1 and E = 0, the position as written is (−2, −a), not the periapsis (0, 2 − a) |
| EarlyBodies.UndefinedEccentricity | content/scripts/app/celestialBody/celestialBody.js:93-114 | with e undefined, the Kepler loop gives NaN after one iteration, whatever M is |
| EarlyBodies.KeplerFromEccentricity | content/scripts/app/celestialBody/celestialBody.js:111-114 | with the ellipse's actual eccentricity the loop is the elliptic Kepler iteration, which stays at 0 for M = 0 |
| EarlyBodies.ReplaceTimes | content/scripts/app/celestialBody/celestialBody.js:79-131 | an updated body keeps the arena well formed |
| EarlyBodies.AppendBody | content/scripts/app/celestialBody/celestialBody.js:40-61 | a new body, with an orbit around an existing parent or without one, keeps the arena well formed |
| EarlyBodies.UpdateBody | content/scripts/app/celestialBody/celestialBody.js:79-131 | the update step computes exactly Advance |
| EarlyBodies.Bodies.constructor | content/scripts/app/celestialBody/celestialBody.js:40-61 | there are no bodies yet and the arena is well formed |
| EarlyBodies.Bodies.NewBody | content/scripts/app/celestialBody/celestialBody.js:40-61 | appends the body its options describe; it has an orbit exactly when an orbital parent is given, built around that parent's global position; the arena stays well formed and no earlier body's global position changes |
| EarlyBodies.Bodies.GetGlobalCoords | content/scripts/app/celestialBody/celestialBody.js:64-76 | the loop returns the body's global position |
| EarlyBodies.Bodies.Update | content/scripts/app/celestialBody/celestialBody.js:79-131 | only body i changes, and into its Advance; the arena stays well formed |
| EarlyBodies.Bodies.DrawOrbit | content/scripts/app/celestialBody/celestialBody.js:149-153 | an orbiting body's ellipse ends with its main focus on the parent's global position |
| StellarBodies.FromOptions | content/scripts/app/stellarSystem/celestialBody.js:9-54 | each field is the option when given and the default otherwise (position (100, 0), velocity (0, 0), mass 50, clockwise); the body records which constructor made it and has no orbit, attractor or time yet |
| StellarBodies.Ancestors | content/scripts/app/stellarSystem/celestialBody.js:70-92 | every body up the parent chain is in range and ranked below the body |
| StellarBodies.GlobalIsChainSum | content/scripts/app/stellarSystem/celestialBody.js:70-92 | the global position (or velocity) is the sum over the body and all its ancestors, and no body is its own ancestor |
| StellarBodies.LeafHasNoDescendants | content/scripts/app/stellarSystem/celestialBody.js:37-63 | a body that is nobody's parent has no descendant but itself |
| StellarBodies.Rerank | content/scripts/app/stellarSystem/celestialBody.js:255-256 | one rank per body |
| StellarBodies.Reattach | content/scripts/app/stellarSystem/celestialBody.js:255-256 | moving a body under a parent outside its own subtree keeps every parent chain finite |
| StellarBodies.OutsideSubtreeKeepsGlobal | content/scripts/app/stellarSystem/celestialBody.js:70-92 | replacing one body changes the global position and velocity of no body outside its subtree |
| StellarBodies.ReattachKeepsGlobals | content/scripts/app/stellarSystem/celestialBody.js:255-256 | re-expressing the body's position relative to its new parent and moving it there changes no global position |
| StellarBodies.GlobalsAgree | content/scripts/app/stellarSystem/celestialBody.js:70-92 | two arenas that agree on body k and on every non-orbiter give k the same global position and velocity, because the arena admits no body around an orbiter |
| StellarBodies.SemiMajorAxisSign | content/scripts/app/stellarSystem/celestialBody.js:183 | the vis-viva semi-major axis is non-zero, and positive (an ellipse) exactly when speed² < 2u/r |
| StellarBodies.DirectionFollowsMomentum | content/scripts/app/stellarSystem/celestialBody.js:214-224 | read through orbit.js's sign table, the direction flag negates the motion exactly when the angular momentum is negative, on an ellipse and on a hyperbola |
| StellarBodies.Determine | content/scripts/app/stellarSystem/celestialBody.js:141-259 | an orbit is determined exactly where the source divides by nothing that is zero; then it has the shape from vis-viva and the eccentricity vector, the direction from h's sign, the mean anomaly from Kepler's equation (negated anticlockwise), and an epoch t with n·t = M |
| StellarBodies.ShapeAxisNonZero | content/scripts/app/stellarSystem/celestialBody.js:183 | the determined semi-major axis is never zero |
| StellarBodies.Epoch | content/scripts/app/stellarSystem/celestialBody.js:251-252 | n is the positive mean motion sqrt(u/abs(a³)) and n·t = M |
| StellarBodies.MeanMotionPositive | content/scripts/app/stellarSystem/celestialBody.js:251 | the mean motion is positive for u > 0 and a ≠ 0 |
| StellarBodies.FactorNonZero | content/scripts/app/stellarSystem/celestialBody.js:251 | a non-zero product has non-zero factors |
| StellarBodies.CircularState | content/scripts/app/stellarSystem/celestialBody.js:183-189 | a circular state (speed² = u/r, velocity perpendicular to position) gives a = r and a zero eccentricity vector |
| StellarBodies.CircularAxis | content/scripts/app/stellarSystem/celestialBody.js:183-186 | with speed² = u/r, 2u − r·speed² = u, a = r and the energy term vanishes |
| StellarBodies.ScaleByZero | content/scripts/app/stellarSystem/celestialBody.js:186 | scaling by 0 gives the zero vector |
| StellarBodies.DotExpand | content/scripts/app/stellarSystem/celestialBody.js:186-189 | the squared length of al·c − be·v in terms of c·c, c·v and v·v |
| StellarBodies.Lagrange | content/scripts/app/stellarSystem/celestialBody.js:214 | Lagrange's identity in the plane: abs(c)²·abs(v)² = (c·v)² + h² |
| StellarBodies.EnergyIdentity | content/scripts/app/stellarSystem/celestialBody.js:183-189 | u²(e² − 1) = h²(speed² − 2u/r), from the parts of the eccentricity vector |
| StellarBodies.SquareBelowOne | content/scripts/app/stellarSystem/celestialBody.js:196 | for e ≥ 0, e < 1 exactly when e² < 1 |
| StellarBodies.ProductKeepsOrderWeak | content/scripts/app/stellarSystem/celestialBody.js:198 | a non-negative factor keeps a weak order |
| StellarBodies.EccentricitySquare | content/scripts/app/stellarSystem/celestialBody.js:183-214 | the determined eccentricity satisfies u²(e² − 1) = h²(speed² − 2u/r) |
| StellarBodies.EnergyOfVector | content/scripts/app/stellarSystem/celestialBody.js:186-189 | the same identity on the eccentricity vector with its parts named |
| StellarBodies.EvComponents | content/scripts/app/stellarSystem/celestialBody.js:186 | the eccentricity vector's components are al·x − be·vx and al·y − be·vy |
| StellarBodies.CrossAndDot | content/scripts/app/stellarSystem/celestialBody.js:214 | the cross and dot products in components |
| StellarBodies.SquaredLength | content/scripts/app/stellarSystem/celestialBody.js:170-176 | a vector's length squared is the sum of its squared components |
| StellarBodies.EnergyOfComponents | content/scripts/app/stellarSystem/celestialBody.js:183-214 | the energy identity in components |
| StellarBodies.ClassifyBySign | content/scripts/app/stellarSystem/celestialBody.js:196-224 | with non-zero h, e < 1 exactly when a > 0; with h = 0, e = 1 |
| StellarBodies.NegativeWithPositive | content/scripts/app/stellarSystem/celestialBody.js:183 | a positive factor keeps the sign |
| StellarBodies.EccentricityClassifies | content/scripts/app/stellarSystem/celestialBody.js:183-202 | with non-zero angular momentum the eccentricity is below 1 exactly when the semi-major axis is positive; radial motion gives e = 1, so the hyperbolic branch is taken exactly for a ≤ 0 or radial motion |
| StellarBodies.DeterminedAxes | content/scripts/app/stellarSystem/celestialBody.js:196-204 | the determined semi-minor axis is non-negative and at most a on an ellipse, so the new conic keeps the axes and angle as given |
| StellarBodies.MinorAxisBounds | content/scripts/app/stellarSystem/celestialBody.js:196-202 | b lies in [0, abs(a)] on both branches |
| StellarBodies.ScaledBelow | content/scripts/app/stellarSystem/celestialBody.js:198 | a·q lies in [0, a] for q in [0, 1] |
| StellarBodies.SquareAtLeastOne | content/scripts/app/stellarSystem/celestialBody.js:201 | e ≥ 1 gives e² ≥ 1 |
| StellarBodies.SoiMonotone | content/scripts/app/stellarSystem/celestialBody.js:288 | j(m/M)^(2/5) is non-negative and grows with the body's mass |
| StellarBodies.SoiNonNegative | content/scripts/app/stellarSystem/celestialBody.js:288 | j(m/M)^(2/5) is non-negative |
| StellarBodies.SphereOfInfluenceRadius | content/scripts/app/stellarSystem/celestialBody.js:265-290 | 0 for a massless body and for any orbiter (content/scripts/app/stellarSystem/orbiter.js:14-16), 0 on a hyperbolic orbit (j < 0), and otherwise j(m/M)^(2/5) around the orbital parent; never negative |
| StellarBodies.ProperEccentricity | content/scripts/app/stellarSystem/celestialBody.js:303-321 | on an orbit with non-zero axes the eccentricity is below 1 exactly on an ellipse (j > 0) and never exactly 1 |
| StellarBodies.AnomalyAtPeriapsis | content/scripts/app/stellarSystem/celestialBody.js:292-334 | at time 0 since periapsis the solved eccentric anomaly is 0 |
| StellarBodies.RadiusNonZero | content/scripts/app/stellarSystem/celestialBody.js:399 | on a proper orbit the body is never at its parent |
| StellarBodies.PeriapsisDistance | content/scripts/app/stellarSystem/celestialBody.js:399 | at E = 0 an ellipse puts the body j − a from its parent |
| StellarBodies.PeriapsisAlgebra | content/scripts/app/stellarSystem/celestialBody.js:399 | j(1 − e²)/(1 + e) = j − a when e = a/j |
| StellarBodies.Speed | content/scripts/app/stellarSystem/celestialBody.js:358 | where the vis-viva radicand is non-negative the speed is non-negative and its square is u(2/r − 1/j) |
| StellarBodies.VelocityAt | content/scripts/app/stellarSystem/celestialBody.js:336-365 | the velocity lies on the line of the unit tangent at E, with the vis-viva speed as its signed length along it; where the radicand is non-negative its length is that speed. On a hyperbola that tangent is the source's, not the path's (see "## Left out") |
| StellarBodies.Advance | content/scripts/app/stellarSystem/celestialBody.js:375-406 | without an orbit nothing changes; otherwise t (0 if unset) grows by dt, only t, position and velocity change, and on a proper orbit the body moves to the point and velocity of the solved eccentric anomaly |
| StellarBodies.Move | content/scripts/app/stellarSystem/celestialBody.js:396-405 | the new position is the conic's point at the solved eccentric anomaly, at the conic's radius and never at the parent, and the new velocity is the vis-viva velocity there |
| StellarBodies.FirstUpdateAtPeriapsis | content/scripts/app/stellarSystem/celestialBody.js:380-402 | a first update with dt = 0 puts a body on an ellipse at periapsis, j − a from its parent |
| StellarBodies.ReplaceBody | content/scripts/app/stellarSystem/celestialBody.js:375-406 | replacing a body by a well-formed one of the same kind and mass keeps every body well formed |
| StellarBodies.AttachOrbit | content/scripts/app/stellarSystem/celestialBody.js:110-126 | giving a body a well-formed orbit around an attachable parent keeps the arena valid (also lines 254-259) |
| StellarBodies.AttachKeepsGlobals | content/scripts/app/stellarSystem/celestialBody.js:254-259 | re-attaching with re-expressed coordinates moves no body's global position |
| StellarBodies.AppendKeepsGlobals | content/scripts/app/stellarSystem/celestialBody.js:37-63 | adding a body changes no global position or velocity of the bodies already there |
| StellarBodies.AppendBody | content/scripts/app/stellarSystem/celestialBody.js:37-63 | a new orbit-less body under an existing massive non-orbiter keeps the arena valid and is nobody's parent |
| StellarBodies.Bodies.constructor | content/scripts/app/stellarSystem/celestialBody.js:37-63 | there are no bodies yet and the arena is valid |
| StellarBodies.Bodies.NewBody | content/scripts/app/stellarSystem/celestialBody.js:37-63 | appends the body its options describe and leaves the others; with an orbital parent, a moving body gets the orbit determined from its state (or stays orbit-less where none is), a body at rest a circle of radius abs(coords) with its focus on the parent |
| StellarBodies.Bodies.StartOrbit | content/scripts/app/stellarSystem/celestialBody.js:56-62 | recalculateOrbit for a moving body, setInitialOrbit for one at rest, with the same outcome as NewBody |
| StellarBodies.Bodies.Append | content/scripts/app/stellarSystem/celestialBody.js:37-55 | the bodies become the old ones plus the new one; no earlier body's global value changes |
| StellarBodies.Bodies.Compose | content/scripts/app/stellarSystem/celestialBody.js:70-92 | the loop returns the global position or velocity |
| StellarBodies.Bodies.GetGlobalPosition | content/scripts/app/stellarSystem/celestialBody.js:70-80 | returns the global position |
| StellarBodies.Bodies.GetGlobalVelocity | content/scripts/app/stellarSystem/celestialBody.js:82-92 | returns the global velocity |
| StellarBodies.Bodies.GetLocal | content/scripts/app/stellarSystem/celestialBody.js:94-105 | the global value minus the parent's (by default the orbital parent); relative to the orbital parent that is the stored value |
| StellarBodies.Bodies.GetLocalPosition | content/scripts/app/stellarSystem/celestialBody.js:94-99 | the global position minus the parent's; the stored coordinates for the orbital parent |
| StellarBodies.Bodies.GetLocalVelocity | content/scripts/app/stellarSystem/celestialBody.js:101-105 | the global velocity minus the parent's; the stored velocity for the orbital parent |
| StellarBodies.Bodies.SetInitialOrbit | content/scripts/app/stellarSystem/celestialBody.js:110-126 | only body i changes: its parent and attractor become p and its orbit a circle of radius abs(coords), angle 0, with its main focus on p's global position |
| StellarBodies.Bodies.RecalculateOrbit | content/scripts/app/stellarSystem/celestialBody.js:128-263 | with no parent given and none set nothing happens; it succeeds exactly when the orbit around the parent is determinable; on success only body i changes, into the recalculated body with a fresh orbit; no global position changes and no orbit already in the arena is touched |
| StellarBodies.Bodies.Repatch | content/scripts/app/stellarSystem/celestialBody.js:204-259 | body i becomes the recalculated body around p with a fresh orbit; the others, all global positions and every orbit already in the arena are kept |
| StellarBodies.Bodies.Update | content/scripts/app/stellarSystem/celestialBody.js:375-406 | only body i changes, into its Advance, and the arena stays valid |
| StellarBodies.Bodies.EccentricAnomaly | content/scripts/app/stellarSystem/celestialBody.js:292-334 | returns the solved eccentric anomaly at the given time |
| StellarBodies.Bodies.OrbitalVelocity | content/scripts/app/stellarSystem/celestialBody.js:336-370 | returns the vis-viva velocity along the tangent at E: on the tangent's line, with the speed as its signed length along it; on a hyperbola that tangent is the source's, not the path's |
| StellarBodies.PlaceConic | content/scripts/app/stellarSystem/celestialBody.js:122-123 | a fresh conic with the given axes (upright) whose main focus is on the given point (also lines 204-205) |
| StellarBodies.OrbitFromState | content/scripts/app/stellarSystem/celestialBody.js:204-259 | the body takes the local state, the parent as parent and attractor, the determined direction and epoch, and a fresh conic of the determined axes and angle with its main focus on the parent |
| StellarSystems.Nearest | content/scripts/app/stellarSystem/stellarSystem.js:65-85 | a chosen position lies after the root and strictly inside its sphere of influence |
| StellarSystems.NearestIsClosest | content/scripts/app/stellarSystem/stellarSystem.js:65-85 | the scan finds the closest of the candidate positions, the earliest on a tie, and none exactly when no position after the root contains the orbiter |
| StellarSystems.ClosestUnique | content/scripts/app/stellarSystem/stellarSystem.js:65-85 | at most one position is the closest one, so the choice is determined |
| StellarSystems.Distances | content/scripts/app/stellarSystem/stellarSystem.js:72 | one distance per attractor |
| StellarSystems.DistanceIs | content/scripts/app/stellarSystem/stellarSystem.js:72 | entry j is the length of the orbiter's position relative to attractor j |
| StellarSystems.Radii | content/scripts/app/stellarSystem/stellarSystem.js:71 | one radius per attractor |
| StellarSystems.RadiusIs | content/scripts/app/stellarSystem/stellarSystem.js:67-71 | entry j is attractor j's sphere-of-influence radius, and 0 for the skipped root |
| StellarSystems.Chosen | content/scripts/app/stellarSystem/stellarSystem.js:65-85 | the chosen attractor is one of the system's attractors |
| StellarSystems.ChosenFrame | content/scripts/app/stellarSystem/stellarSystem.js:58-90 | two states with the same global positions and the same non-orbiters make the same choice, so re-patching one orbiter does not change the others' choices |
| StellarSystems.OrbiterIsLeaf | content/scripts/app/stellarSystem/stellarSystem.js:58-90 | the arena admits no body around an orbiter, so an orbiter has no children |
| StellarSystems.ChosenAttachable | content/scripts/app/stellarSystem/stellarSystem.js:83-88 | the chosen attractor is a massive non-orbiter outside the orbiter's subtree, so the orbiter can be moved onto it |
| StellarSystems.ListsAfterAdd | content/scripts/app/stellarSystem/stellarSystem.js:23-35 | listing a body by its kind, once it has an orbit, keeps the lists valid |
| StellarSystems.ListsAfterReattach | content/scripts/app/stellarSystem/stellarSystem.js:87-89 | giving an orbiter a new orbit keeps the lists valid |
| StellarSystems.AdvanceAll | content/scripts/app/stellarSystem/stellarSystem.js:44-52 | advancing keeps one body per index and every orbit as built |
| StellarSystems.Advanced | content/scripts/app/stellarSystem/stellarSystem.js:44-52 | the advanced state has one body per index |
| StellarSystems.AdvanceAllMoves | content/scripts/app/stellarSystem/stellarSystem.js:44-52 | advancing changes nothing but positions, velocities and times since periapsis |
| StellarSystems.AdvanceAllKeeps | content/scripts/app/stellarSystem/stellarSystem.js:44-52 | advancing keeps the arena and the lists valid, on the same ranks |
| StellarSystems.StellarSystem.constructor | content/scripts/app/stellarSystem/stellarSystem.js:8-21 | the attractors are the given sun, whatever body it is, or else a new Sun attractor appended to the arena with the source's options; there are no orbiters; the system is valid, so that the other operations apply, exactly when the sun is a massive non-orbiter, which the default Sun is |
| StellarSystems.StellarSystem.AddCelestialBody | content/scripts/app/stellarSystem/stellarSystem.js:23-35 | an attractor joins the attractors, an orbiter the orbiters, any other body neither list; a body without an attractor is put on a circle around the root, with its focus on the root's global position, and a body that has one is left exactly as it was; no other body changes. This is the corrected guard: as written, the guard at :32 always holds (AddCelestialBodyAsWritten) |
| StellarSystems.StellarSystem.AddCelestialBodyAsWritten | content/scripts/app/stellarSystem/stellarSystem.js:23-35 | the same list updates, but every body, whatever its orbit and parent, is put under the root with its coordinates kept and a circle of radius abs(coords) around it, so its global position becomes coords plus the root's global position |
| StellarSystems.AddAsWrittenMoves | content/scripts/app/stellarSystem/stellarSystem.js:32-34 | a body moved under the root with its coordinates kept ends at coords plus the root's global position; one that had another parent stays where it was exactly when that parent and the root are at the same global position |
| StellarSystems.StellarSystem.NearestAttractor | content/scripts/app/stellarSystem/stellarSystem.js:65-85 | the inner loop returns the chosen attractor and touches no orbit |
| StellarSystems.StellarSystem.Consider | content/scripts/app/stellarSystem/stellarSystem.js:69-79 | one step of the inner loop extends the scanned prefix by attractor j |
| StellarSystems.StellarSystem.Update | content/scripts/app/stellarSystem/stellarSystem.js:37-91 | every body advances first; then each orbiter x, with c the attractor chosen for it in the advanced state, keeps its advanced state when c is already its attractor or no orbit around c can be determined, and otherwise is exactly recalculateOrbit's result around c: the determined shape, direction and epoch, with the main focus on c; non-orbiters keep their advanced state and no global position moves during re-patching |
| StellarSystems.StellarSystem.AdvanceEvery | content/scripts/app/stellarSystem/stellarSystem.js:44-52 | the two advancing loops leave exactly the advanced state |
| StellarSystems.StellarSystem.AdvanceEach | content/scripts/app/stellarSystem/stellarSystem.js:45-52 | one advancing loop advances every body of its list in turn |
| StellarSystems.StellarSystem.AdvanceStep | content/scripts/app/stellarSystem/stellarSystem.js:46-51 | one step advances the next body of the list |
| StellarSystems.StellarSystem.Repatch | content/scripts/app/stellarSystem/stellarSystem.js:58-90 | the evaluation loop leaves every orbiter as its outcome against its choice, as described for Update, with the invariant Repatched and FociPlaced |
| StellarSystems.StellarSystem.Step | content/scripts/app/stellarSystem/stellarSystem.js:59-89 | evaluating one orbiter against its choice extends both the evaluated prefix (Repatched) and the placed foci (FociPlaced) by one |
| StellarSystems.StellarSystem.Reattach | content/scripts/app/stellarSystem/stellarSystem.js:87-89 | only the orbiter changes and no existing orbit is touched; it is unchanged when already on the attractor c; otherwise it becomes recalculateOrbit's result around c when an orbit around c can be determined from their relative state, and stays as it was when none can; no global position moves |
| StellarSystems.StellarSystem.ReattachKeeping | content/scripts/app/stellarSystem/stellarSystem.js:86-89 | Reattach of the o-th orbiter onto its choice mid-loop: the foci placed so far stay placed and the orbiter ends as its outcome from the advanced state |
| StellarSystems.ChoicesOf | content/scripts/app/stellarSystem/stellarSystem.js:58-85 | one choice per orbiter evaluated |
| StellarSystems.ChoiceIs | content/scripts/app/stellarSystem/stellarSystem.js:58-85 | entry o is the attractor chosen for orbiter o |
| StellarSystems.NonOrbitersKept | content/scripts/app/stellarSystem/stellarSystem.js:58-90 | mid-evaluation, every non-orbiter is as in the advanced state |
| StellarSystems.OutcomeIs | content/scripts/app/stellarSystem/stellarSystem.js:86-89 | an orbiter's outcome is recalculateOrbit's result around its choice exactly when it is not on that attractor yet and an orbit around it can be determined, and the orbiter as it was otherwise |
| StellarSystems.ChoiceKept | content/scripts/app/stellarSystem/stellarSystem.js:58-85 | mid-evaluation, orbiter o's choice is still the one made in the advanced state, and it can attach to it |
| StellarSystems.EvaluatedOrbiter | content/scripts/app/stellarSystem/stellarSystem.js:58-90 | what Reattach promises about the state mid-loop is the orbiter's outcome from the advanced state, both its shape and where its orbit lies |
| StellarSystems.RepatchStep | content/scripts/app/stellarSystem/stellarSystem.js:58-90 | evaluating orbiter o extends the loop's invariant by one |
| StellarSystems.SameChoices | content/scripts/app/stellarSystem/stellarSystem.js:58-85 | an orbiter listed twice has the same choice both times |
| StellarSystems.KeptOneMore | content/scripts/app/stellarSystem/stellarSystem.js:58-90 | evaluating orbiter o touches no body outside the first o + 1 orbiters |
| StellarSystems.ShapesOneMore | content/scripts/app/stellarSystem/stellarSystem.js:58-90 | orbiter o's outcome shape joins those of the orbiters before it, which it leaves alone |
| StellarSystems.FociOneMore | content/scripts/app/stellarSystem/stellarSystem.js:58-90 | orbiter o's placed focus joins those of the orbiters before it, which it leaves alone |
| StellarSystems.EvaluatedAll | content/scripts/app/stellarSystem/stellarSystem.js:58-90 | after the last orbiter the evaluation loop's outcome holds |
| Convert.SplitValue | content/scripts/app/units/convert.js:15-23 | given the bracketing law of log10, the mantissa lies in [1, 10) and mantissa·10^exp is the value |
| Convert.Mantissa | content/scripts/app/units/convert.js:16-17 | v/10^exp lies in [1, 10) when 10^exp ≤ v < 10^(exp+1), and times 10^exp gives v back |
| Convert.TimesValue | content/scripts/app/units/convert.js:31-32 | one step of combineSplit multiplies the numbers the two pairs stand for |
| Convert.LeadingPair | content/scripts/app/units/convert.js:25-63 | starting combineSplit from (1, 0) with the converter's own pair first is combining from that pair |
| Convert.CombineFromValue | content/scripts/app/units/convert.js:25-39 | combining with pairs that stand for given numbers multiplies by their product |
| Convert.LastStep | content/scripts/app/units/convert.js:30-33 | the last combining step multiplies by the last number |
| Convert.StepValue | content/scripts/app/units/convert.js:31-32 | a combining step multiplies the accumulated number by the next one |
| Convert.CombineSplit | content/scripts/app/units/convert.js:25-39 | the loop returns the pairs combined in order from (1, 0) |
| Convert.SplitsOf | content/scripts/app/units/convert.js:67-69 | one split per unit, the splitValue of that unit |
| Convert.SplitsStep | content/scripts/app/units/convert.js:67-69 | one more loop step pushes the split of the next unit |
| Convert.InverseSplitsOf | content/scripts/app/units/convert.js:83-85 | one split per unit u, the splitValue of 1/u |
| Convert.InverseSplitsStep | content/scripts/app/units/convert.js:83-85 | one more loop step pushes the split of the next unit's reciprocal |
| Convert.SplitsStand | content/scripts/app/units/convert.js:67-69 | each pushed split stands for its unit |
| Convert.FromProduct | content/scripts/app/units/convert.js:62-76 | `from` multiplies the value by the product of the units |
| Convert.Reciprocals | content/scripts/app/units/convert.js:84 | entry k is 1/u_k |
| Convert.ReciprocalsCancel | content/scripts/app/units/convert.js:78-92 | the product of the reciprocals times the product of the units is 1, so `to` divides by the units |
| Convert.ReciprocalsPositive | content/scripts/app/units/convert.js:84 | reciprocals of positive units are positive |
| Convert.InverseSplitsAreReciprocal | content/scripts/app/units/convert.js:84 | the splits `to` pushes are the splits `from` would push for the reciprocals |
| Convert.ToProduct | content/scripts/app/units/convert.js:78-92 | `to` multiplies the value by the product of the reciprocals of the units |
| Convert.SplitOfFive | content/scripts/app/units/convert.js:15-23 | the split of 5 is (5, 0) |
| Convert.Pow10Monotone | content/scripts/app/units/convert.js:16-17 | 10^a ≤ 10^b for a ≤ b |
| Convert.FromLeavesMantissa | content/scripts/app/units/convert.js:71-73 | the combined pair is stored as it comes: from(5) on convert(5) holds mantissa 25, outside [1, 10), and still stands for 25 |
| Convert.Converter.constructor | content/scripts/app/units/convert.js:41-96 | the converter holds the split of the value, which stands for it |
| Convert.Converter.SetValue | content/scripts/app/units/convert.js:54-59 | the pair becomes the value's split, and the getter (:50-52) gives the value back |
| Convert.Converter.From | content/scripts/app/units/convert.js:62-76 | the pair becomes the old pair combined with the split of every unit; it returns itself |
| Convert.Converter.To | content/scripts/app/units/convert.js:78-92 | the pair becomes the old pair combined with the split of 1/u for every unit u; it returns itself |
| Units.UnitsPositive | content/scripts/app/units/units.js:13-68 | every unit of the table is positive, so every one can be handed to from and to |
| Units.BaseUnits | content/scripts/app/units/units.js:13-68 | the base units (pixel, solar mass, year) are 1 and every alias equals the unit it names |
| Units.Ratios | content/scripts/app/units/units.js:22-66 | a km is 1000 m, a kg 1000 g, a year 365.25 days, a day 24 hours, an hour 60 minutes or 3600 s, a minute 60 s, a day 86400 s |
| Units.ConvertedValue | content/scripts/app/units/convert.js:41-96 | convert(v).from(u).to(w).value is v·u/w |
| Units.FromOne | content/scripts/app/units/convert.js:62-76 | `from` with one unit multiplies by it |
| Units.ToOne | content/scripts/app/units/convert.js:78-92 | `to` with one unit divides by it |
| Units.ConvertUnit | content/scripts/app/units/convert.js:41-96 | the chained converter returns the value of the converted pair |
| Units.KilometreInMetres | content/scripts/app/units/convert.js:9 | convert(1).from(km).to(m).value is 1000 |
| Units.MetresPerSecondInKmPerHour | content/scripts/app/units/convert.js:10 | 1 m/s is 3.6 km/h |
| Units.GramInKilograms | content/scripts/app/units/units.js:44 | a gram is 1/1000 kg |
| Units.DayInHours | content/scripts/app/units/units.js:56-59 | a day is 24 hours and a year 365.25 days |
| Units.AUInMetresAsWritten | content/scripts/app/units/units.js:16-18 | with the metre as the table writes it, one AU converts to 1/149600000000 metres |
| Units.SizesAsWritten | content/scripts/app/units/units.js:26-40 | with the table's entries, a solar radius converts to 1/695700 km and an earth mass to 1/5.971270305·10^24 kg |
| Units.AUInMetres | content/scripts/app/units/units.js:16-18 | with the metre as the size of a metre, one AU is 149600000000 metres |
| Units.Sizes | content/scripts/app/units/units.js:26-40 | with the corrected entries, a solar radius is 695700 km, an earth radius 6371 km and an earth mass 5.971270305·10^24 kg |
| Start.FrameDt | content/scripts/util/start.js:9-15 | the step is 0, the raw elapsed time or maxDt, and never more than a positive maxDt |
| Start.FirstFrame | content/scripts/util/start.js:6-9 | with non-negative settings the first frame gets 0 |
| Start.InactiveIsZero | content/scripts/util/start.js:11-12 | a step longer than a set inactivity timeout is dropped to 0 |
| Start.LongStepIsCapped | content/scripts/util/start.js:13-14 | otherwise a step longer than a set maxDt becomes maxDt |
| Start.OtherStepIsRaw | content/scripts/util/start.js:9-15 | any other step is the elapsed time in seconds |
| Start.BackwardsPassesThrough | content/scripts/util/start.js:9-15 | a timestamp before the previous one gives a negative step, passed on unclamped |
| Start.NotAhead | content/scripts/util/start.js:9-15 | a forward step is between 0 and the time that passed |
| Start.Steps | content/scripts/util/start.js:8-19 | one step per frame |
| Start.RunNotAhead | content/scripts/util/start.js:8-19 | over frames whose clock moves forward the delivered steps add up to at most the time that passed |
| Start.FrameClock.constructor | content/scripts/util/start.js:5-6 | no previous frame (time 0) and the given settings |
| Start.FrameClock.DoCallback | content/scripts/util/start.js:8-17 | the stored time becomes the timestamp and the step passed on is FrameDt of the previous time |

## Left out

- Drawing is left out. This covers every `draw`, `drawOrbit`, `drawFoci` and `drawCentre` on the canvas, the hyperbola polylines, and the debug sphere-of-influence drawing (stellarSystem/celestialBody.js:408-421). `EarlyBodies.Orbit.Draw` and `EarlyBodies.Bodies.DrawOrbit` keep only the focus translation that precedes the drawing.
- patchedConics.js is not part of this model. It is page and canvas set-up, a click handler, random scenario choices and an fps display.
- requestAnimationFrame scheduling and the callback call in util/start.js are left out. `Start.FrameClock.DoCallback` returns the step it would pass on.
- Floating-point rounding, NaN and Infinity are not modelled: numbers are exact reals. Where the source would produce NaN or Infinity, the model has a precondition or an `Option` instead. Examples are a parabola (a = 0, or 2u = r·speed²), a body at its parent, or a zero vector to normalise.
- The convergence and accuracy of the Kepler fixed-point and Newton loops are left out. The model states only the loop shape, the fixed point E = 0 at M = 0, and the bound of the elliptic iterates.
- The closed forms for the true anomaly from the eccentric anomaly, and its inverse (atan2/acosh), are kept uninterpreted. So are `getAngle` (acos) and `pointInside`. No claims are made about their values.
- `eccentricAnomalyAtTrueAnomaly` of orbit/conic.js:125-142 and orbit/orbit.js:193-195 is not modelled, nor is `pointInside` of orbit/orbit.js:247-265. Both are closed-form transcendental expressions whose only content would be the uninterpreted functions.
- The hyperbolic true-anomaly line (orbit/conic.js:83, conics/conic.js:128) is modelled as written and not proved against its derivation comment.
- `Ellipse.getTangentAtEccentricAnomaly` (conics/ellipse.js:88-109) is not modelled. No modelled caller uses it.
- Console logging, warnings and traces are not modelled.
- The velocity estimate by division by dt, and its DOM writes (celestialBody/celestialBody.js:125-128), are not modelled. They have no effect on the state.
- Math.random is not modelled. Its two values in the celestialBody/orbit.js constructor are parameters `random1` and `random2`.
- The constants G and iterM of orbit/config.js are parameters of `Orbits.Orbit.OrbitalVelocity` and `Orbits.Orbit.EccentricAnomalyAtTime`. The constants of the two celestialBody.js files are module constants (`G`, `IterM`).
- Orbits.Orbit.constructor requires an attractor, a ≠ 0 and b ≥ 0. Without an attractor the source logs an error and leaves the centre undefined. With a = 0 the conic's eccentricity is infinite. A negative b is not a conic the model represents.
- OrbitConic.NewConic requires a ≥ b for an ellipse. On a < b the source only logs an error and goes on with a square root of a negative number.
- StellarBodies.Advance moves a body only on a proper orbit (j ≠ 0 and n > 0). On an orbit of radial motion (n = 0, e = 1) the source's formulas give NaN. The model leaves position and velocity as they were.
- StellarBodies.Bodies.NewBody and StellarBodies.Bodies.Append require an orbital parent to be a non-orbiter of positive mass, and the body's own mass to be non-negative; a StellarSystems.StellarSystem.constructor whose sun is not a massive non-orbiter gives a system that is not Valid, which no other operation accepts. stellarSystem/celestialBody.js:37-63 and stellarSystem.js:9 accept any parent and any sun. The arena invariant (`BodyOk`, `CanAttach`, `Lists`) keeps these restrictions, for two reasons:
  - A body around an orbiter can close a cycle of parents. For example, an attractor X on a circle around an orbiter O, heavier than O, lies at distance j inside its own sphere of influence j·(mass of X/mass of O)^(2/5). The scan at stellarSystem.js:65-85 then picks X for O, `recalculateOrbit` puts O under X, and the loop of getGlobalPosition (celestialBody.js:70-80) never ends.
  - A massless parent gives u = 0, and the orbit determination divides by it, so the orbit is NaN.
- ConicsConic.Conic.TangentAt is modelled as written. For a hyperbola (j < 0), conics/conic.js:153 still uses the ellipse slope −n cos E/(j sin E), so the tangent is that of (j cos E, n sin E) and not of the hyperbola. For example, at E = π/2 it lies along the focal axis, which no tangent of a hyperbola does. The model claims tangency to the path only for an ellipse. StellarBodies.VelocityAt and StellarBodies.Bodies.OrbitalVelocity take this tangent, so on a hyperbolic orbit their velocity, like the source's, does not run along the path.
- StellarBodies.SphereOfInfluenceRadius requires a massive non-orbiter to have an orbit. The source would throw on `this.orbit.j` otherwise.
- StellarSystems.StellarSystem.Update skips the re-patch of an orbiter whose new orbit cannot be determined. The source would fill that orbiter with NaN.
- Convert.Converter.From and Convert.Converter.To state the new pair as a combination of splits. The change in value (multiplied by the units, or divided by them) is stated by `Convert.FromProduct` and `Convert.ToProduct` on that combination, rather than in the method contracts.
- Convert.SplitValue requires a positive value. log10 of a non-positive number is NaN or -Infinity.
- Start.FrameDt models an unset `maxDt` or `inactiveTimeout` (undefined) as 0. Both are falsy, so the rule is the same.
- Units.AU is kept as written (1/200 of a pixel). The comment beside it speaks of 100 px per AU, and the model takes no side.
- Vectors.Vector.Scale and Vectors.Vector.Dot have no ensures of their own. An ensures on them would be instantiated at every use, and that makes the nonlinear proofs of the rest of the model too costly. What they compute is stated by the lemmas ScaleAlong, ScaleLength, ScaleUnit, ScaleProducts, DotSelfNonNegative, DotSelfPositive and DotSymmetric.
- Vectors.Vector.Normalise and Vectors.Vector.GetRotation model functions that vector/vector.js does not define (see above).

## Findings

| source | as written | input that shows it | evidently intended | confidence | as-written member | corrected member |
|---|---|---|---|---|---|---|
| content/scripts/app/stellarSystem/stellarSystem.js:32-34 | the guard reads `orbit.attractor`, which the conics/conic.js orbit never has, so every added body is put on a circle around the root with its coordinates kept, discarding the orbit and parent that stellarSystem/celestialBody.js:56-61 gave it | sun at the origin, a planet at global (1, 0) under it, and a moon created under the planet with coords (0.01, 0): as written the moon moves from (1.01, 0) to (0.01, 0), next to the sun | only a body without an orbit is put on the initial circle | not executed | StellarSystems.StellarSystem.AddCelestialBodyAsWritten | StellarSystems.StellarSystem.AddCelestialBody |
| content/scripts/app/celestialBody/celestialBody.js:93 | the eccentricity is read from `ellipse.e`, which conics/ellipse.js never sets, so the Kepler loop gives NaN | any orbiting body on any update: E is NaN after the first iteration | the ellipse's eccentricity a/j (conics/ellipse.js:47-49) | not executed | EarlyBodies.UndefinedEccentricity | EarlyBodies.KeplerFromEccentricity |
| content/scripts/app/celestialBody/celestialBody.js:117-120 | the point is turned by the ellipse's angle a second time, although getPointAtEccentricAnomaly already turns it (conics/ellipse.js:85) | angle π/2, j = 2, n = 1, E = 0: the body is put at (−2, −a) instead of the periapsis (0, 2 − a) | one rotation, so that E = 0 is the periapsis j − a along the major axis | not executed | EarlyBodies.DoubleTurnMissesPeriapsis | EarlyBodies.AdvanceAtEpoch |
| content/scripts/app/units/units.js:18, 26-27, 37, 40 | these entries say how many of the unit make one base unit, while km, g, the time units (:22, 44, 56-66) and convert.js treat a unit as its size in the base unit | convert(1).from(AU).to(m).value is 1/149600000000 | 149600000000 metres in an AU, with the metre, the radii, the earth mass and the kilogram given as their sizes | not executed | Units.AUInMetresAsWritten | Units.AUInMetres |
| content/scripts/app/orbit/orbit.js:125-141 | at an apsis, orbit/conic.js:109-111 assigns the direction (0, 1) to a stray variable and returns an undefined slope, so the tangent is (±1, NaN) | E = 0, the orbiter at periapsis at its epoch | the direction along the minor axis, (0, ±1) turned by the angle, as the comment at orbit/conic.js:110 says | not executed | Orbits.TangentAsWritten | Orbits.Tangent |
