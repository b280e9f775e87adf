# Sailing race geometry — a Dafny model

This project models the race-geometry module of a 2D sail-race tracker
(`src/lib/raceLogic.ts`). The module does four things:

- It checks whether a boat's sampled path crossed the start or finish line.
- It checks whether a boat rounded a mark.
- It lays out a windward/leeward course: start line, Mark 1, an optional
  offset Mark 1A, an optional two-mark leeward gate, and a finish line.
- It computes the two layline endpoints from a mark, the wind direction and
  the tacking angle.

The geodesy primitives the module calls come from the `./geoUtils` module.
They are destination point, distance, angle difference and segment
intersection. That module is not part of this model. The primitives are four arbitrary total
functions bundled in `GeoUtils.Geodesy`, and every operation takes one as
its first argument. So each contract holds for every implementation of the
primitives. Each contract says exactly which primitive call, with which
arguments, produces each output.

Numbers are exact `real`s. JavaScript's `%` is a truncated remainder: the
result has the sign of the dividend. It is written out as
`Bearings.JsRem360`, next to the Euclidean reduction `Bearings.Mod360`, which
serves as its reference.

Files:

- `geo_utils.dfy`: module `GeoUtils`, the coordinate type and the primitives.
- `bearings.dfy`: module `Bearings`, truncation, the two remainders and
  congruence modulo a full turn.
- `race_logic.dfy`: module `RaceLogic`, the four operations, the course
  reference layout and the lemmas.

Course generation builds the mark list step by step, as the source does with
`marks.push`. Here it is the method `GenerateWindwardLeewardCourse`, which
appends to a local sequence. It is proved equal to the reference function
`WindwardLeewardCourse`. That function builds the layout in a different way:
it takes the list of mark kinds that the options select and derives each mark
from its kind alone. The lemmas state the layout's shape, attributes and
positions about that function.

The layline computation reassigns a local port angle in a fix-up step. It is
the method `CalculateLaylinePoints`. Its fix-up is proved to equal the
Euclidean reduction (`Bearings.FoldedRemainderIsMod360`).

The gate centre is projected 50 m along `windDirection`
(`src/lib/raceLogic.ts:74`), the bearing Mark 1 uses. The source's own
comment at line 65 calls the gate leeward, and the finish midpoint uses
`windDirection + 180`. The model keeps the bearing as written.

## Model

| member | source | states |
|---|---|---|
| RaceLogic.CheckLineCrossing | src/lib/raceLogic.ts:9-16 | The crossing result is exactly the segment-intersection primitive on (prevPos, currPos, lineP1, lineP2), in that order. |
| RaceLogic.LineCrossingUsesIntersectionOnly | src/lib/raceLogic.ts:9-16 | Nothing is added to the intersection test: two geodesies that agree on it give the same crossing result, whatever their other primitives. |
| RaceLogic.CheckMarkRounding | src/lib/raceLogic.ts:19-34 | Outside the mark's radius the result is false, whatever the headings. Inside the radius it is true iff the angle difference of entry and exit heading exceeds 90. |
| RaceLogic.RightAngleTurnIsNotRounding | src/lib/raceLogic.ts:32-33 | An angle difference of exactly 90 degrees never counts as a rounding. |
| RaceLogic.RoundingNeedsProximityAndTurn | src/lib/raceLogic.ts:26-33 | A rounding holds iff the boat is within the radius and the turn exceeds 90 degrees. |
| RaceLogic.SelectedKinds | src/lib/raceLogic.ts:55-81 | The selected marks number 1 + (offset ? 1 : 0) + (gate ? 2 : 0) and start with Mark 1. The offset mark is present iff useOffset. Both gate marks are present iff useGate. |
| RaceLogic.MarksOf | src/lib/raceLogic.ts:55-81 | The reference mark list has one mark per selected kind, in the same order, each mark determined by its kind alone: its id, name, radius 24, role, rounding side and position. |
| RaceLogic.GenerateWindwardLeewardCourse | src/lib/raceLogic.ts:38-93 | Building the marks by conditional appends yields exactly the reference layout `WindwardLeewardCourse`, including lines, ids, names, radii, roles, rounding sides and positions. |
| RaceLogic.GenerateDefaultCourse | src/lib/raceLogic.ts:41-43 | The default call uses a 1 NM leg, a 40 m gate and both options on, and yields the reference layout for those values. |
| RaceLogic.CourseMarkIds | src/lib/raceLogic.ts:55-81 | The layout holds 1 + (offset ? 1 : 0) + (gate ? 2 : 0) marks. Their ids are M1, then M1A if present, then G4S and G4P if present. |
| RaceLogic.CourseIsValidLayout | src/lib/raceLogic.ts:55-81 | Every generated layout has positive mark radii and pairwise distinct mark ids. |
| RaceLogic.CourseMarkAttributes | src/lib/raceLogic.ts:55-80 | Every mark has radius 24. M1 is "Mark 1", mark1, port. M1A is "Mark 1A", mark1a, port. G4S is "Gate 4S", gate, starboard. G4P is "Gate 4P", gate, port. |
| RaceLogic.CourseMarkPositions | src/lib/raceLogic.ts:45-77 | Mark 1 is projected from the start midpoint at legNM*1852 m on the wind bearing. M1A is 80 m from Mark 1 at wind-90. G4S and G4P are gateWidth/2 from a gate centre at wind+90 and wind-90; the gate centre is 50 m from the start midpoint on the wind bearing. |
| RaceLogic.CourseLines | src/lib/raceLogic.ts:48-91 | The start line runs from 100 m at wind-90 to 100 m at wind+90 of the start midpoint. The finish line does the same around a point 50 m from the start midpoint at wind+180. |
| RaceLogic.CourseSkeletonIndependentOfOptions | src/lib/raceLogic.ts:45-91 | The options and the gate width change neither line nor Mark 1. |
| RaceLogic.DefaultCourseHasFourMarks | src/lib/raceLogic.ts:41-81 | With the default arguments the marks are exactly M1, M1A, G4S, G4P, and Mark 1 is 1852 m along the wind from the start midpoint. |
| RaceLogic.BareCourseHasOnlyMark1 | src/lib/raceLogic.ts:55-81 | With both options off the layout holds Mark 1 alone. |
| RaceLogic.StarboardBearing | src/lib/raceLogic.ts:103 | The starboard bearing is in [0, 360) when wind+180+tack >= 0 and in (-360, 0] when it is negative. It denotes the same direction as wind+180+tack. |
| RaceLogic.PortBearing | src/lib/raceLogic.ts:108-109 | The port bearing is in [0, 360) and denotes the same direction as wind+180-tack. |
| RaceLogic.CalculateLaylinePoints | src/lib/raceLogic.ts:96-114 | Both endpoints are the destination point from the mark at lengthMeters. The starboard one uses the JS remainder of wind+180+tack. The port one, after the negative fix-up, uses the reduction of wind+180-tack into [0, 360). |
| RaceLogic.LaylineBearingsDifferByTwiceTack | src/lib/raceLogic.ts:102-109 | Starboard minus port bearing is congruent to 2*tack modulo 360. |
| RaceLogic.LaylineBearingsSymmetricAboutDownwind | src/lib/raceLogic.ts:102-109 | Starboard plus port bearing is congruent to 2*(wind+180) modulo 360: the laylines are symmetric about the downwind direction. |
| RaceLogic.StarboardBearingNormalWhenSumNonNegative | src/lib/raceLogic.ts:103 | When wind+180+tack >= 0, the starboard bearing equals its reduction into [0, 360). |
| RaceLogic.StarboardBearingCanBeNegative | src/lib/raceLogic.ts:103-109 | For wind -300 and tack 45 the starboard bearing is -75, while the port bearing is folded to 195. |
| Bearings.Trunc | src/lib/raceLogic.ts:103 | The quotient of JavaScript's `%` rounds toward zero: it lies within one unit of y, on the side of zero. |
| Bearings.JsRem360 | src/lib/raceLogic.ts:103 | JavaScript's x % 360 has the sign of x, lies strictly within one turn of zero, and is congruent to x modulo 360. |
| Bearings.Mod360 | src/lib/raceLogic.ts:108-109 | The reference reduction lies in [0, 360) and is congruent to x. |
| Bearings.FoldedRemainderIsMod360 | src/lib/raceLogic.ts:108-109 | The truncated remainder, plus 360 when it is negative, equals the Euclidean reduction into [0, 360) for every real. |

## Left out

- `src/components/canvas/Laylines.tsx` is not part of this model. It is a rendering component: it reads UI stores, memoises, projects into a 3D frame through a helper that is not shown, and emits styled lines.
- The bodies of the geodesy primitives (the `./geoUtils` module) are not part of this model. They are spherical trigonometry, so they are kept arbitrary. Properties that need real geodesy are therefore not stated. Examples: that Mark 1 lies due north for wind 0, or that a given path crosses a given line.
- Floating-point behaviour is not modelled: NaN, rounding, and IEEE remainder corner cases such as `-0`. Numbers are exact reals.
- RaceLogic.StarboardBearing: `-0` and `0` are one value here. JavaScript's `-360 % 360` gives `-0`; the model gives `0`.
- `calculateLaylinePoints`'s default arguments (2000 m, 45 degrees) have no wrapper. Callers pass all four values. The course generator's defaults are modelled by `GenerateDefaultCourse`.
- The `Mark` and `CourseLayout` types come from the `./raceTypes` module, which is not part of this model. The role set holds the three roles the generator assigns (mark1, mark1a, gate); any further roles that module may declare are not modelled.
- Determinism needs no statement: every operation is a function or a method without state.
