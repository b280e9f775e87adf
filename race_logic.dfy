/** The sailing-race calculations: start/finish line crossing, mark rounding,
    windward/leeward course layout and layline endpoints.

    Every geographic computation goes through the `Geodesy` primitives, so the
    contracts below pin down from which point, at which distance and on which
    bearing each output position is projected. */
module RaceLogic {
  import opened GeoUtils
  import opened Bearings

  datatype Role = Mark1 | Mark1a | Gate

  datatype Side = Port | Starboard

  datatype Mark = Mark(id: string, name: string, pos: Coordinate, radius: real, role: Role, rounding: Side)

  datatype LineSegment = LineSegment(p1: Coordinate, p2: Coordinate)

  datatype CourseLayout = CourseLayout(startLine: LineSegment, finishLine: LineSegment, marks: seq<Mark>)

  datatype CourseOptions = CourseOptions(useOffset: bool, useGate: bool)

  // ---------------------------------------------------------------------------
  // Line crossing and mark rounding
  // ---------------------------------------------------------------------------

  /** A boat moving from prevPos to currPos has crossed the line p1-p2. The
      answer is the segment-intersection primitive applied to the path first
      and the line second, and nothing else. */
  function CheckLineCrossing(g: Geodesy, prevPos: Coordinate, currPos: Coordinate,
                             lineP1: Coordinate, lineP2: Coordinate): (crossed: bool)
    ensures crossed <==> g.lineIntersection(prevPos, currPos, lineP1, lineP2)
  {
    g.lineIntersection(prevPos, currPos, lineP1, lineP2)
  }

  /** The crossing test depends on the intersection primitive only: two
      geodesies that agree on it give the same answer, whatever their
      distance, angle and projection functions. */
  lemma LineCrossingUsesIntersectionOnly(g1: Geodesy, g2: Geodesy, prevPos: Coordinate, currPos: Coordinate,
                                         lineP1: Coordinate, lineP2: Coordinate)
    requires g1.lineIntersection == g2.lineIntersection
    ensures CheckLineCrossing(g1, prevPos, currPos, lineP1, lineP2)
         == CheckLineCrossing(g2, prevPos, currPos, lineP1, lineP2)
  {
  }

  /** A boat at boatPos has rounded the mark when it is inside the mark's
      radius and its heading has turned by more than 90 degrees between entry
      and exit. */
  function CheckMarkRounding(g: Geodesy, boatPos: Coordinate, mark: Mark,
                             entryHeading: real, exitHeading: real): (rounded: bool)
    ensures g.distance(boatPos, mark.pos) > mark.radius ==> !rounded
    ensures g.distance(boatPos, mark.pos) <= mark.radius ==>
              (rounded <==> g.angleDiff(entryHeading, exitHeading) > 90.0)
  {
    var dist := g.distance(boatPos, mark.pos);
    if dist > mark.radius then false
    else
      var angleChange := g.angleDiff(entryHeading, exitHeading);
      angleChange > 90.0
  }

  /** A turn of exactly 90 degrees is not a rounding, wherever the boat is. */
  lemma RightAngleTurnIsNotRounding(g: Geodesy, boatPos: Coordinate, mark: Mark,
                                    entryHeading: real, exitHeading: real)
    requires g.angleDiff(entryHeading, exitHeading) == 90.0
    ensures !CheckMarkRounding(g, boatPos, mark, entryHeading, exitHeading)
  {
  }

  /** A rounding needs both the proximity and the turn. */
  lemma RoundingNeedsProximityAndTurn(g: Geodesy, boatPos: Coordinate, mark: Mark,
                                      entryHeading: real, exitHeading: real)
    ensures CheckMarkRounding(g, boatPos, mark, entryHeading, exitHeading) <==>
              g.distance(boatPos, mark.pos) <= mark.radius && g.angleDiff(entryHeading, exitHeading) > 90.0
  {
  }

  // ---------------------------------------------------------------------------
  // Windward/leeward course layout
  // ---------------------------------------------------------------------------

  /** The four marks a windward/leeward course can hold. */
  datatype MarkKind = WindwardMark | OffsetMark | GateStarboardMark | GatePortMark

  /** The marks of a course, in order, for the given options: Mark 1 always,
      the offset mark when asked for, then the two gate marks when asked for. */
  function SelectedKinds(options: CourseOptions): (kinds: seq<MarkKind>)
    ensures |kinds| == 1 + (if options.useOffset then 1 else 0) + (if options.useGate then 2 else 0)
    ensures kinds[0] == WindwardMark
    ensures OffsetMark in kinds <==> options.useOffset
    ensures GateStarboardMark in kinds <==> options.useGate
    ensures GatePortMark in kinds <==> options.useGate
  {
    [WindwardMark]
    + (if options.useOffset then [OffsetMark] else [])
    + (if options.useGate then [GateStarboardMark, GatePortMark] else [])
  }

  function KindId(k: MarkKind): string
  {
    match k
    case WindwardMark => "M1"
    case OffsetMark => "M1A"
    case GateStarboardMark => "G4S"
    case GatePortMark => "G4P"
  }

  function KindName(k: MarkKind): string
  {
    match k
    case WindwardMark => "Mark 1"
    case OffsetMark => "Mark 1A"
    case GateStarboardMark => "Gate 4S"
    case GatePortMark => "Gate 4P"
  }

  function KindRole(k: MarkKind): Role
  {
    match k
    case WindwardMark => Mark1
    case OffsetMark => Mark1a
    case GateStarboardMark => Gate
    case GatePortMark => Gate
  }

  function KindRounding(k: MarkKind): Side
  {
    match k
    case GateStarboardMark => Starboard
    case _ => Port
  }

  /** Mark 1: the leg distance, converted from nautical miles, upwind of the
      start midpoint. */
  function Mark1Position(g: Geodesy, startMidpoint: Coordinate, windDirection: real, legDistanceNM: real): Coordinate
  {
    g.destinationPoint(startMidpoint, legDistanceNM * 1852.0, windDirection)
  }

  /** The gate centre, 50 m from the start midpoint on the wind bearing
      itself (the same bearing Mark 1 is projected on). */
  function GateCentre(g: Geodesy, startMidpoint: Coordinate, windDirection: real): Coordinate
  {
    g.destinationPoint(startMidpoint, 50.0, windDirection)
  }

  /** The finish midpoint, 50 m from the start midpoint on the downwind bearing. */
  function FinishMidpoint(g: Geodesy, startMidpoint: Coordinate, windDirection: real): Coordinate
  {
    g.destinationPoint(startMidpoint, 50.0, windDirection + 180.0)
  }

  /** A line perpendicular to the wind, 100 m to either side of its midpoint. */
  function CrossWindLine(g: Geodesy, midpoint: Coordinate, windDirection: real): LineSegment
  {
    LineSegment(g.destinationPoint(midpoint, 100.0, windDirection - 90.0),
                g.destinationPoint(midpoint, 100.0, windDirection + 90.0))
  }

  function KindPosition(g: Geodesy, startMidpoint: Coordinate, windDirection: real,
                        legDistanceNM: real, gateWidthMeters: real, k: MarkKind): Coordinate
  {
    match k
    case WindwardMark => Mark1Position(g, startMidpoint, windDirection, legDistanceNM)
    case OffsetMark =>
      g.destinationPoint(Mark1Position(g, startMidpoint, windDirection, legDistanceNM), 80.0, windDirection - 90.0)
    case GateStarboardMark =>
      g.destinationPoint(GateCentre(g, startMidpoint, windDirection), gateWidthMeters / 2.0, windDirection + 90.0)
    case GatePortMark =>
      g.destinationPoint(GateCentre(g, startMidpoint, windDirection), gateWidthMeters / 2.0, windDirection - 90.0)
  }

  function KindMark(g: Geodesy, startMidpoint: Coordinate, windDirection: real,
                    legDistanceNM: real, gateWidthMeters: real, k: MarkKind): Mark
  {
    Mark(KindId(k), KindName(k), KindPosition(g, startMidpoint, windDirection, legDistanceNM, gateWidthMeters, k),
         24.0, KindRole(k), KindRounding(k))
  }

  /** The reference layout: one mark per selected kind, in order, each mark
      determined by its kind alone; the start line through the start
      midpoint and the finish line through the finish midpoint. */
  function WindwardLeewardCourse(g: Geodesy, startMidpoint: Coordinate, windDirection: real,
                                 legDistanceNM: real, gateWidthMeters: real, options: CourseOptions): CourseLayout
  {
    var kinds := SelectedKinds(options);
    CourseLayout(
      CrossWindLine(g, startMidpoint, windDirection),
      CrossWindLine(g, FinishMidpoint(g, startMidpoint, windDirection), windDirection),
      MarksOf(g, startMidpoint, windDirection, legDistanceNM, gateWidthMeters, kinds))
  }

  /** The marks for a list of kinds: one per kind, in the same order. */
  function MarksOf(g: Geodesy, startMidpoint: Coordinate, windDirection: real,
                   legDistanceNM: real, gateWidthMeters: real, kinds: seq<MarkKind>): (marks: seq<Mark>)
    ensures |marks| == |kinds|
    ensures forall i :: 0 <= i < |kinds| ==>
              marks[i] == KindMark(g, startMidpoint, windDirection, legDistanceNM, gateWidthMeters, kinds[i])
  {
    if kinds == [] then []
    else [KindMark(g, startMidpoint, windDirection, legDistanceNM, gateWidthMeters, kinds[0])]
         + MarksOf(g, startMidpoint, windDirection, legDistanceNM, gateWidthMeters, kinds[1..])
  }

  /** The marks of two lists of kinds, one after the other, are the marks of
      their concatenation. */
  lemma {:induction false} MarksOfAppend(g: Geodesy, startMidpoint: Coordinate, windDirection: real,
                                         legDistanceNM: real, gateWidthMeters: real, kinds1: seq<MarkKind>, kinds2: seq<MarkKind>)
    ensures MarksOf(g, startMidpoint, windDirection, legDistanceNM, gateWidthMeters, kinds1 + kinds2)
         == MarksOf(g, startMidpoint, windDirection, legDistanceNM, gateWidthMeters, kinds1)
            + MarksOf(g, startMidpoint, windDirection, legDistanceNM, gateWidthMeters, kinds2)
  {
    if kinds1 != [] {
      assert (kinds1 + kinds2)[1..] == kinds1[1..] + kinds2;
      MarksOfAppend(g, startMidpoint, windDirection, legDistanceNM, gateWidthMeters, kinds1[1..], kinds2);
    } else {
      assert kinds1 + kinds2 == kinds2;
    }
  }

  function MarkIds(marks: seq<Mark>): seq<string>
  {
    seq(|marks|, i requires 0 <= i < |marks| => marks[i].id)
  }

  /** The layout invariant: positive radii and pairwise distinct identifiers. */
  predicate ValidLayout(layout: CourseLayout)
  {
    (forall i :: 0 <= i < |layout.marks| ==> layout.marks[i].radius > 0.0) &&
    (forall i, j :: 0 <= i < j < |layout.marks| ==> layout.marks[i].id != layout.marks[j].id)
  }

  /** Builds the course mark by mark, as the course-setting code does. */
  method GenerateWindwardLeewardCourse(g: Geodesy, startMidpoint: Coordinate, windDirection: real,
                                       legDistanceNM: real, gateWidthMeters: real, options: CourseOptions)
    returns (layout: CourseLayout)
    ensures layout == WindwardLeewardCourse(g, startMidpoint, windDirection, legDistanceNM, gateWidthMeters, options)
  {
    var legDistanceMeters := legDistanceNM * 1852.0;

    var startHalfWidth := 100.0;
    var startP1 := g.destinationPoint(startMidpoint, startHalfWidth, windDirection - 90.0);
    var startP2 := g.destinationPoint(startMidpoint, startHalfWidth, windDirection + 90.0);

    var mark1Pos := g.destinationPoint(startMidpoint, legDistanceMeters, windDirection);
    var marks := [Mark("M1", "Mark 1", mark1Pos, 24.0, Mark1, Port)];
    // The kinds of the marks pushed so far, for the proof.
    ghost var kinds := [WindwardMark];
    assert marks == MarksOf(g, startMidpoint, windDirection, legDistanceNM, gateWidthMeters, kinds);

    if options.useOffset {
      var mark1APos := g.destinationPoint(mark1Pos, 80.0, windDirection - 90.0);
      marks := marks + [Mark("M1A", "Mark 1A", mark1APos, 24.0, Mark1a, Port)];
      MarksOfAppend(g, startMidpoint, windDirection, legDistanceNM, gateWidthMeters, kinds, [OffsetMark]);
      kinds := kinds + [OffsetMark];
      assert marks == MarksOf(g, startMidpoint, windDirection, legDistanceNM, gateWidthMeters, kinds);
    }

    if options.useGate {
      var gateCentre := g.destinationPoint(startMidpoint, 50.0, windDirection);
      var gateHalfWidth := gateWidthMeters / 2.0;
      var gate4SPos := g.destinationPoint(gateCentre, gateHalfWidth, windDirection + 90.0);
      var gate4PPos := g.destinationPoint(gateCentre, gateHalfWidth, windDirection - 90.0);
      marks := marks + [Mark("G4S", "Gate 4S", gate4SPos, 24.0, Gate, Starboard)];
      marks := marks + [Mark("G4P", "Gate 4P", gate4PPos, 24.0, Gate, Port)];
      MarksOfAppend(g, startMidpoint, windDirection, legDistanceNM, gateWidthMeters, kinds, [GateStarboardMark, GatePortMark]);
      kinds := kinds + [GateStarboardMark, GatePortMark];
      assert marks == MarksOf(g, startMidpoint, windDirection, legDistanceNM, gateWidthMeters, kinds);
    }
    assert kinds == SelectedKinds(options);

    var finishMidpoint := g.destinationPoint(startMidpoint, 50.0, windDirection + 180.0);
    var finishP1 := g.destinationPoint(finishMidpoint, startHalfWidth, windDirection - 90.0);
    var finishP2 := g.destinationPoint(finishMidpoint, startHalfWidth, windDirection + 90.0);

    layout := CourseLayout(LineSegment(startP1, startP2), LineSegment(finishP1, finishP2), marks);

    ghost var spec := WindwardLeewardCourse(g, startMidpoint, windDirection, legDistanceNM, gateWidthMeters, options);
    assert spec.startLine == layout.startLine;
    assert spec.finishLine == layout.finishLine;
  }

  /** The default call: a one-nautical-mile leg, a 40 m gate, with both the
      offset mark and the gate. */
  method GenerateDefaultCourse(g: Geodesy, startMidpoint: Coordinate, windDirection: real)
    returns (layout: CourseLayout)
    ensures layout == WindwardLeewardCourse(g, startMidpoint, windDirection, 1.0, 40.0, CourseOptions(true, true))
  {
    layout := GenerateWindwardLeewardCourse(g, startMidpoint, windDirection, 1.0, 40.0, CourseOptions(true, true));
  }

  /** The attributes every mark of a generated course carries, by identifier. */
  predicate HasFixedAttributes(m: Mark)
  {
    m.radius == 24.0 &&
    (m.id == "M1" ==> m.name == "Mark 1" && m.role == Mark1 && m.rounding == Port) &&
    (m.id == "M1A" ==> m.name == "Mark 1A" && m.role == Mark1a && m.rounding == Port) &&
    (m.id == "G4S" ==> m.name == "Gate 4S" && m.role == Gate && m.rounding == Starboard) &&
    (m.id == "G4P" ==> m.name == "Gate 4P" && m.role == Gate && m.rounding == Port)
  }

  /** The number of marks and their order: M1, then M1A if asked for, then
      G4S and G4P if asked for. */
  lemma {:induction false} CourseMarkIds(g: Geodesy, startMidpoint: Coordinate, windDirection: real,
                                         legDistanceNM: real, gateWidthMeters: real, options: CourseOptions)
    ensures var c := WindwardLeewardCourse(g, startMidpoint, windDirection, legDistanceNM, gateWidthMeters, options);
      |c.marks| == 1 + (if options.useOffset then 1 else 0) + (if options.useGate then 2 else 0) &&
      MarkIds(c.marks) == ["M1"] + (if options.useOffset then ["M1A"] else []) + (if options.useGate then ["G4S", "G4P"] else [])
  {
    var kinds := SelectedKinds(options);
    var marks := MarksOf(g, startMidpoint, windDirection, legDistanceNM, gateWidthMeters, kinds);
    assert MarkIds(marks) == KindIds(kinds);
    SelectedKindIds(options);
  }

  /** The identifiers of the selected kinds, option by option. */
  lemma {:induction false} SelectedKindIds(options: CourseOptions)
    ensures KindIds(SelectedKinds(options))
         == ["M1"] + (if options.useOffset then ["M1A"] else []) + (if options.useGate then ["G4S", "G4P"] else [])
  {
    var kinds := SelectedKinds(options);
    match options
    case CourseOptions(false, false) =>
      assert kinds == [WindwardMark];
    case CourseOptions(true, false) =>
      assert kinds == [WindwardMark, OffsetMark];
    case CourseOptions(false, true) =>
      assert kinds == [WindwardMark, GateStarboardMark, GatePortMark];
    case CourseOptions(true, true) =>
      assert kinds == [WindwardMark, OffsetMark, GateStarboardMark, GatePortMark];
  }

  function KindIds(kinds: seq<MarkKind>): seq<string>
  {
    seq(|kinds|, i requires 0 <= i < |kinds| => KindId(kinds[i]))
  }

  /** A generated course keeps the layout invariant: its radii are positive
      and no identifier occurs twice. */
  lemma {:induction false} CourseIsValidLayout(g: Geodesy, startMidpoint: Coordinate, windDirection: real,
                                               legDistanceNM: real, gateWidthMeters: real, options: CourseOptions)
    ensures ValidLayout(WindwardLeewardCourse(g, startMidpoint, windDirection, legDistanceNM, gateWidthMeters, options))
  {
    var kinds := SelectedKinds(options);
    var marks := MarksOf(g, startMidpoint, windDirection, legDistanceNM, gateWidthMeters, kinds);
    SelectedKindsDistinct(options);
    forall i, j | 0 <= i < j < |marks|
      ensures marks[i].id != marks[j].id
    {
      assert marks[i].id == KindId(kinds[i]) && marks[j].id == KindId(kinds[j]);
    }
  }

  /** No kind is selected twice. */
  lemma {:induction false} SelectedKindsDistinct(options: CourseOptions)
    ensures var kinds := SelectedKinds(options);
      forall i, j :: 0 <= i < j < |kinds| ==> kinds[i] != kinds[j]
  {
    var kinds := SelectedKinds(options);
    match options
    case CourseOptions(false, false) =>
      assert kinds == [WindwardMark];
    case CourseOptions(true, false) =>
      assert kinds == [WindwardMark, OffsetMark];
    case CourseOptions(false, true) =>
      assert kinds == [WindwardMark, GateStarboardMark, GatePortMark];
    case CourseOptions(true, true) =>
      assert kinds == [WindwardMark, OffsetMark, GateStarboardMark, GatePortMark];
  }

  /** Every mark of a generated course has radius 24 and the name, role and
      rounding side that belong to its identifier. */
  lemma CourseMarkAttributes(g: Geodesy, startMidpoint: Coordinate, windDirection: real,
                             legDistanceNM: real, gateWidthMeters: real, options: CourseOptions)
    ensures var c := WindwardLeewardCourse(g, startMidpoint, windDirection, legDistanceNM, gateWidthMeters, options);
      forall i :: 0 <= i < |c.marks| ==> HasFixedAttributes(c.marks[i])
  {
  }

  /** Where each mark is projected from, how far and on which bearing. */
  lemma CourseMarkPositions(g: Geodesy, startMidpoint: Coordinate, windDirection: real,
                            legDistanceNM: real, gateWidthMeters: real, options: CourseOptions)
    ensures var c := WindwardLeewardCourse(g, startMidpoint, windDirection, legDistanceNM, gateWidthMeters, options);
      var n := |c.marks|;
      var gateCentre := g.destinationPoint(startMidpoint, 50.0, windDirection);
      n >= 1 &&
      c.marks[0].pos == g.destinationPoint(startMidpoint, legDistanceNM * 1852.0, windDirection) &&
      (options.useOffset ==> n >= 2 && c.marks[1].pos == g.destinationPoint(c.marks[0].pos, 80.0, windDirection - 90.0)) &&
      (options.useGate ==>
         (n >= 3 &&
          c.marks[n - 2].pos == g.destinationPoint(gateCentre, gateWidthMeters / 2.0, windDirection + 90.0) &&
          c.marks[n - 1].pos == g.destinationPoint(gateCentre, gateWidthMeters / 2.0, windDirection - 90.0)))
  {
  }

  /** The start line lies 100 m either side of the start midpoint across the
      wind; the finish line mirrors it around a midpoint 50 m downwind. */
  lemma CourseLines(g: Geodesy, startMidpoint: Coordinate, windDirection: real,
                    legDistanceNM: real, gateWidthMeters: real, options: CourseOptions)
    ensures var c := WindwardLeewardCourse(g, startMidpoint, windDirection, legDistanceNM, gateWidthMeters, options);
      var finishMidpoint := g.destinationPoint(startMidpoint, 50.0, windDirection + 180.0);
      c.startLine == LineSegment(g.destinationPoint(startMidpoint, 100.0, windDirection - 90.0),
                                 g.destinationPoint(startMidpoint, 100.0, windDirection + 90.0)) &&
      c.finishLine == LineSegment(g.destinationPoint(finishMidpoint, 100.0, windDirection - 90.0),
                                  g.destinationPoint(finishMidpoint, 100.0, windDirection + 90.0))
  {
  }

  /** The options and the gate width only change which optional marks are
      added: the lines and Mark 1 stay where they are. */
  lemma CourseSkeletonIndependentOfOptions(g: Geodesy, startMidpoint: Coordinate, windDirection: real, legDistanceNM: real,
                                           gateWidth1: real, gateWidth2: real, options1: CourseOptions, options2: CourseOptions)
    ensures var c1 := WindwardLeewardCourse(g, startMidpoint, windDirection, legDistanceNM, gateWidth1, options1);
      var c2 := WindwardLeewardCourse(g, startMidpoint, windDirection, legDistanceNM, gateWidth2, options2);
      c1.startLine == c2.startLine && c1.finishLine == c2.finishLine &&
      |c1.marks| >= 1 && |c2.marks| >= 1 && c1.marks[0] == c2.marks[0]
  {
  }

  /** The default course holds exactly M1, M1A, G4S and G4P, with Mark 1
      1852 m upwind of the start midpoint. */
  lemma DefaultCourseHasFourMarks(g: Geodesy, startMidpoint: Coordinate, windDirection: real)
    ensures var c := WindwardLeewardCourse(g, startMidpoint, windDirection, 1.0, 40.0, CourseOptions(true, true));
      MarkIds(c.marks) == ["M1", "M1A", "G4S", "G4P"] &&
      c.marks[0].pos == g.destinationPoint(startMidpoint, 1852.0, windDirection)
  {
    CourseMarkIds(g, startMidpoint, windDirection, 1.0, 40.0, CourseOptions(true, true));
  }

  /** Without the offset mark and the gate, the course holds Mark 1 alone. */
  lemma BareCourseHasOnlyMark1(g: Geodesy, startMidpoint: Coordinate, windDirection: real,
                               legDistanceNM: real, gateWidthMeters: real)
    ensures var c := WindwardLeewardCourse(g, startMidpoint, windDirection, legDistanceNM, gateWidthMeters, CourseOptions(false, false));
      MarkIds(c.marks) == ["M1"]
  {
    CourseMarkIds(g, startMidpoint, windDirection, legDistanceNM, gateWidthMeters, CourseOptions(false, false));
  }

  // ---------------------------------------------------------------------------
  // Laylines
  // ---------------------------------------------------------------------------

  /** The starboard layline bearing, `(wind + 180 + tack) % 360` with
      JavaScript's remainder: never a full turn away from zero, negative
      only when the sum is, and the same direction as the sum. */
  function StarboardBearing(windDirection: real, tackingAngle: real): (b: real)
    ensures 0.0 <= windDirection + 180.0 + tackingAngle ==> 0.0 <= b < 360.0
    ensures windDirection + 180.0 + tackingAngle < 0.0 ==> -360.0 < b <= 0.0
    ensures Congruent360(b, windDirection + 180.0 + tackingAngle)
  {
    JsRem360(windDirection + 180.0 + tackingAngle)
  }

  /** The port layline bearing: the direction of `wind + 180 - tack`,
      always in [0, 360). */
  function PortBearing(windDirection: real, tackingAngle: real): (b: real)
    ensures 0.0 <= b < 360.0
    ensures Congruent360(b, windDirection + 180.0 - tackingAngle)
  {
    Mod360(windDirection + 180.0 - tackingAngle)
  }

  /** The two layline endpoints: lengthMeters from the mark on the starboard
      and on the port layline bearing. */
  method CalculateLaylinePoints(g: Geodesy, markPos: Coordinate, windDirection: real,
                                lengthMeters: real, tackingAngle: real)
    returns (pStarboard: Coordinate, pPort: Coordinate)
    ensures pStarboard == g.destinationPoint(markPos, lengthMeters, StarboardBearing(windDirection, tackingAngle))
    ensures pPort == g.destinationPoint(markPos, lengthMeters, PortBearing(windDirection, tackingAngle))
  {
    var starboardAngle := JsRem360(windDirection + 180.0 + tackingAngle);
    pStarboard := g.destinationPoint(markPos, lengthMeters, starboardAngle);

    var portAngle := JsRem360(windDirection + 180.0 - tackingAngle);
    if portAngle < 0.0 {
      portAngle := portAngle + 360.0;
    }
    FoldedRemainderIsMod360(windDirection + 180.0 - tackingAngle);

    pPort := g.destinationPoint(markPos, lengthMeters, portAngle);
  }

  /** The two laylines are twice the tacking angle apart, modulo a turn. */
  lemma {:induction false} LaylineBearingsDifferByTwiceTack(windDirection: real, tackingAngle: real)
    ensures Congruent360(StarboardBearing(windDirection, tackingAngle) - PortBearing(windDirection, tackingAngle),
                         2.0 * tackingAngle)
  {
    var w := windDirection + 180.0;
    CongruentSub(StarboardBearing(windDirection, tackingAngle), w + tackingAngle,
                 PortBearing(windDirection, tackingAngle), w - tackingAngle);
    assert (w + tackingAngle) - (w - tackingAngle) == 2.0 * tackingAngle;
  }

  /** The two laylines are symmetric about the downwind direction: their
      bearings add up to twice `wind + 180`, modulo a turn. */
  lemma {:induction false} LaylineBearingsSymmetricAboutDownwind(windDirection: real, tackingAngle: real)
    ensures Congruent360(StarboardBearing(windDirection, tackingAngle) + PortBearing(windDirection, tackingAngle),
                         2.0 * (windDirection + 180.0))
  {
    var w := windDirection + 180.0;
    CongruentAdd(StarboardBearing(windDirection, tackingAngle), w + tackingAngle,
                 PortBearing(windDirection, tackingAngle), w - tackingAngle);
    assert (w + tackingAngle) + (w - tackingAngle) == 2.0 * w;
  }

  /** When `wind + 180 + tack` is not negative, the starboard bearing already
      is the reduction into [0, 360); the missing fix-up only matters below zero. */
  lemma {:induction false} StarboardBearingNormalWhenSumNonNegative(windDirection: real, tackingAngle: real)
    requires 0.0 <= windDirection + 180.0 + tackingAngle
    ensures StarboardBearing(windDirection, tackingAngle) == Mod360(windDirection + 180.0 + tackingAngle)
  {
    var x := windDirection + 180.0 + tackingAngle;
    CongruentSymmetric(Mod360(x), x);
    CongruentTransitive(StarboardBearing(windDirection, tackingAngle), x, Mod360(x));
    CongruentInRangeEqual(StarboardBearing(windDirection, tackingAngle), Mod360(x));
  }

  /** An instance where the starboard bearing is negative while the port
      bearing is folded into range: wind -300, tacking angle 45. */
  lemma StarboardBearingCanBeNegative()
    ensures StarboardBearing(-300.0, 45.0) == -75.0
    ensures PortBearing(-300.0, 45.0) == 195.0
  {
  }
}
