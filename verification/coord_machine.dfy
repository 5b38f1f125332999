/**
 * The coordinate machine: a register machine that holds one point, one
 * rectangle and a single space tag shared by both, a camera (position and
 * integer zoom ratio), a viewport size, three single-slot sources
 * (attachment box, label point, event point) and a stack of snapshots.
 *
 * Coordinates are `real`: storing a point to "center" divides exactly, so
 * halves can reach every coordinate register.  Integer inputs are reals with
 * integral values; Python's `//` is the floor of the exact quotient for both.
 */
module CoordMachine {
  import opened Wrappers

  // ---------------------------------------------------------------------
  // Space tags, exact arithmetic
  // ---------------------------------------------------------------------

  /** The space tags, kept as the source's one-letter codes. */
  const World: string := "w"
  const Canvas: string := "c"

  predicate IsSpace(t: string) {
    t == World || t == Canvas
  }

  predicate Integral(r: real) {
    r.Floor as real == r
  }

  lemma DivideBelow(k: int, d: int, a: real)
    requires d > 0 && (k * d) as real <= a
    ensures k as real <= a / (d as real)
  {
  }

  lemma DivideAbove(k: int, d: int, a: real)
    requires d > 0 && a < (k * d) as real
    ensures a / (d as real) < k as real
  {
  }

  /** For a positive divisor, floor(a) / d (integer division) is the floor of a / d. */
  lemma FloorOfQuotient(a: real, d: int)
    requires d > 0
    ensures var k := a.Floor / d; k as real <= a / (d as real) < (k + 1) as real
  {
    var f := a.Floor;
    var k := f / d;
    assert k * d <= f < (k + 1) * d;
    DivideBelow(k, d, a);
    DivideAbove(k + 1, d, a);
  }

  /**
   * Python's floor division `a // d`: the greatest integer not above a / d.
   * It is computed through the integer floor, since floor(a / d) is
   * floor(floor(a) / d) for a positive divisor (Dafny's `/` on int floors when
   * the divisor is positive), and a // d is (-a) // (-d).
   */
  function FloorDiv(a: real, d: int): (q: real)
    requires d != 0
    ensures Integral(q)
    ensures q <= a / (d as real) < q + 1.0
  {
    if d > 0 then
      FloorOfQuotient(a, d);
      (a.Floor / d) as real
    else
      FloorOfQuotient(-a, -d);
      assert (-a) / ((-d) as real) == a / (d as real);
      ((-a).Floor / -d) as real
  }

  // ---------------------------------------------------------------------
  // Projection between world and canvas space
  // ---------------------------------------------------------------------

  /** The values project_to reads before it transforms anything. */
  datatype Projection = Projection(
    camX: real, camY: real,
    zoomNum: int, zoomDen: int,
    vcx: real, vcy: real)  // viewport centre: width // 2, height // 2

  /** A coordinate's offset from an origin, scaled by num/den and floored. */
  function Scale(v: real, origin: real, num: int, den: int): (r: real)
    requires den != 0
  {
    FloorDiv((v - origin) * (num as real), den)
  }

  /** World to canvas: scale the camera-relative offset, then shift to the viewport centre. */
  function WToC(p: Projection, x: real, y: real): (c: (real, real))
    requires p.zoomDen != 0
    ensures Integral(c.0 - p.vcx) && Integral(c.1 - p.vcy)
  {
    (Scale(x, p.camX, p.zoomNum, p.zoomDen) + p.vcx,
     Scale(y, p.camY, p.zoomNum, p.zoomDen) + p.vcy)
  }

  /** Canvas to world: the inverse formula, with the ratio turned over. */
  function CToW(p: Projection, x: real, y: real): (w: (real, real))
    requires p.zoomNum != 0
    ensures Integral(w.0 - p.camX) && Integral(w.1 - p.camY)
  {
    (Scale(x, p.vcx, p.zoomDen, p.zoomNum) + p.camX,
     Scale(y, p.vcy, p.zoomDen, p.zoomNum) + p.camY)
  }

  /** For a positive divisor, k <= m when k*n <= m*n. */
  lemma CancelPositiveFactor(k: int, m: int, n: int)
    requires n > 0 && k * n <= m * n
    ensures k <= m
  {
    if k > m {
      assert false;
    }
  }

  /** One axis of the round trip, on integers: scaling u by n/d and back by d/n loses at most one unit. */
  lemma RoundTripInt(u: int, n: int, d: int)
    requires 0 < d <= n
    ensures u - 1 <= ((u * n) / d * d) / n <= u
  {
    var a := (u * n) / d;
    var b := (a * d) / n;
    assert a * d <= u * n < a * d + d;
    assert b * n <= a * d < b * n + n;
    CancelPositiveFactor(b, u, n);
    assert (u - 1) * n == u * n - n;
    assert (b + 2) * n == b * n + n + n;
    assert (u - 1) * n < (b + 2) * n;
    CancelPositiveFactor(u - 1, b + 1, n);
  }

  /** Scaling a whole offset and flooring is integer arithmetic. */
  lemma ScaleWhole(v: real, origin: real, u: int, num: int, den: int)
    requires den > 0 && v - origin == u as real
    ensures Scale(v, origin, num, den) == ((u * num) / den) as real
  {
    assert (v - origin) * (num as real) == (u * num) as real;
  }

  /** Floor division of a whole number by a positive divisor is integer division. */
  lemma FloorDivWhole(t: int, d: int)
    requires d > 0
    ensures FloorDiv(t as real, d) == (t / d) as real
  {
  }

  /** One axis of the round trip, on the real-valued registers. */
  lemma RoundTripAxis(v: real, cam: real, vc: real, n: int, d: int)
    requires 0 < d <= n && Integral(v - cam)
    ensures v - 1.0 <= Scale(Scale(v, cam, n, d) + vc, vc, d, n) + cam <= v
  {
    var u := (v - cam).Floor;
    ScaleWhole(v, cam, u, n, d);
    var a := (u * n) / d;
    var c := Scale(v, cam, n, d) + vc;
    ScaleWhole(c, vc, a, d, n);
    RoundTripInt(u, n, d);
  }

  /**
   * The round trip world -> canvas -> world moves each coordinate by at most
   * one unit, downwards, when the zoom is at least 1 and the point sits a whole
   * number of units from the camera.
   */
  lemma RoundTrip(p: Projection, x: real, y: real)
    requires 0 < p.zoomDen <= p.zoomNum
    requires Integral(x - p.camX) && Integral(y - p.camY)
    ensures var c := WToC(p, x, y);
            var w := CToW(p, c.0, c.1);
            x - 1.0 <= w.0 <= x && y - 1.0 <= w.1 <= y
  {
    RoundTripAxis(x, p.camX, p.vcx, p.zoomNum, p.zoomDen);
    RoundTripAxis(y, p.camY, p.vcy, p.zoomNum, p.zoomDen);
  }

  /** Below zoom 1 the round trip can lose more than one unit: zoom 1/3 takes x = 2 to 0. */
  lemma RoundTripFailsBelowUnitZoom()
    ensures var p := Projection(0.0, 0.0, 1, 3, 0.0, 0.0);
            var c := WToC(p, 2.0, 0.0);
            CToW(p, c.0, c.1).0 == 0.0
  {
    var p := Projection(0.0, 0.0, 1, 3, 0.0, 0.0);
    FloorDivWhole(2, 3);
    assert Scale(2.0, 0.0, 1, 3) == FloorDiv(2.0, 3) == 0.0;
    var c := WToC(p, 2.0, 0.0);
    assert c.0 == 0.0;
    FloorDivWhole(0, 1);
    assert Scale(0.0, 0.0, 3, 1) == FloorDiv(0.0, 1) == 0.0;
  }

  /**
   * Off whole offsets the round trip can lose more than one unit even at a
   * zoom above 1: at zoom 7/6, x = -31/3 comes back as -12, 5/3 units below.
   */
  lemma RoundTripFailsForFractionalOffset()
    ensures var p := Projection(0.0, 0.0, 7, 6, 0.0, 0.0);
            var c := WToC(p, -31.0 / 3.0, 0.0);
            CToW(p, c.0, c.1).0 == -12.0 < -31.0 / 3.0 - 1.0
  {
    var p := Projection(0.0, 0.0, 7, 6, 0.0, 0.0);
    var a := -31.0 / 3.0 * 7.0;
    assert a == -217.0 / 3.0;
    assert a.Floor == -73;
    assert Scale(-31.0 / 3.0, 0.0, 7, 6) == FloorDiv(a, 6) == -13.0;
    var c := WToC(p, -31.0 / 3.0, 0.0);
    assert c.0 == -13.0;
    FloorDivWhole(-78, 7);
    assert Scale(-13.0, 0.0, 6, 7) == FloorDiv(-78.0, 7) == -12.0;
  }

  /** At zoom 1/1 projection is a translation: camera to viewport centre and back. */
  lemma UnitZoomIsTranslation(p: Projection, x: real, y: real)
    requires p.zoomNum == 1 && p.zoomDen == 1
    requires Integral(x - p.camX) && Integral(y - p.camY)
    ensures WToC(p, x, y) == (x - p.camX + p.vcx, y - p.camY + p.vcy)
    ensures CToW(p, x - p.camX + p.vcx, y - p.camY + p.vcy) == (x, y)
  {
    var ux, uy := (x - p.camX).Floor, (y - p.camY).Floor;
    ScaleWhole(x, p.camX, ux, 1, 1);
    ScaleWhole(y, p.camY, uy, 1, 1);
    ScaleWhole(x - p.camX + p.vcx, p.vcx, ux, 1, 1);
    ScaleWhole(y - p.camY + p.vcy, p.vcy, uy, 1, 1);
  }
  // ---------------------------------------------------------------------
  // Registers, snapshots, errors
  // ---------------------------------------------------------------------

  /** g_coord: the point, the rectangle and the space tag they share. */
  datatype Coord = Coord(x: real, y: real, x0: real, y0: real, x1: real, y1: real, coordType: string)

  /** g_cam: camera position and the zoom ratio zoomNum / zoomDen. */
  datatype Camera = Camera(x: real, y: real, zoomNum: int, zoomDen: int)

  /** g_view: the canvas viewport size in pixels. */
  datatype View = View(w: int, h: int)

  /** A saved point `(x, y, tag)` or rectangle `(x0, y0, x1, y1, tag)`. */
  datatype Snap =
    | PtSnap(x: real, y: real, tag: string)
    | RectSnap(x0: real, y0: real, x1: real, y1: real, tag: string)

  datatype CoordError =
    | UnknownSource(src: string)         // ValueError from load_rect / load_pt
    | UnknownDestination(dst: string)    // ValueError from store_rect / store_pt
    | WrongSpace                         // RuntimeError: store_rect needs world space
    | InvalidTransition(src: string, dst: string)  // RuntimeError from project_to
    | ZeroDivision                       // ZeroDivisionError from a zero zoom term
    | StackUnderflow                     // RuntimeError: pop on an empty stack
    | WrongSnapshotKind                  // ValueError: unpacking a snapshot of the other kind

  /** Every global of the machine, as one value. */
  datatype MachineState = MachineState(
    coord: Coord, cam: Camera, view: View,
    bbox: (real, real, real, real),   // g_attachment
    labelCoord: (real, real),         // g_label
    event: (real, real),              // g_event
    stack: seq<Snap>)                 // S

  /** The globals as coord_reset_state leaves them (and as the module starts). */
  const Initial: MachineState := MachineState(
    Coord(0.0, 0.0, 0.0, 0.0, 0.0, 0.0, World), Camera(0.0, 0.0, 1, 1), View(0, 0),
    (0.0, 0.0, 0.0, 0.0), (0.0, 0.0), (0.0, 0.0), [])

  /** The space tag, and every saved tag, is "w" or "c". */
  predicate WellTagged(s: MachineState) {
    IsSpace(s.coord.coordType) && forall i :: 0 <= i < |s.stack| ==> IsSpace(s.stack[i].tag)
  }

  const PointSources: set<string> :=
    {"event", "center", "center-south", "nw", "ne", "se", "sw", "label"}
  const PointDestinations: set<string> := {"center", "nw", "ne", "se", "sw", "cam"}

  /** What project_to reads: camera, zoom and the viewport centre `(w // 2, h // 2)`. */
  function ProjectionOf(cam: Camera, view: View): (p: Projection)
    ensures p.camX == cam.x && p.camY == cam.y
    ensures p.zoomNum == cam.zoomNum && p.zoomDen == cam.zoomDen
    ensures p.vcx <= (view.w as real) / 2.0 < p.vcx + 1.0
    ensures p.vcy <= (view.h as real) / 2.0 < p.vcy + 1.0
  {
    Projection(cam.x, cam.y, cam.zoomNum, cam.zoomDen, FloorDiv(view.w as real, 2), FloorDiv(view.h as real, 2))
  }

  /** The point and both corners carried to canvas space. */
  function CoordToCanvas(c: Coord, p: Projection): (r: Coord)
    requires p.zoomDen != 0
    ensures r.coordType == Canvas
    ensures Integral(r.x - p.vcx) && Integral(r.y - p.vcy)
    ensures Integral(r.x0 - p.vcx) && Integral(r.y0 - p.vcy) && Integral(r.x1 - p.vcx) && Integral(r.y1 - p.vcy)
  {
    var pt, c0, c1 := WToC(p, c.x, c.y), WToC(p, c.x0, c.y0), WToC(p, c.x1, c.y1);
    Coord(pt.0, pt.1, c0.0, c0.1, c1.0, c1.1, Canvas)
  }

  /** The point and both corners carried to world space. */
  function CoordToWorld(c: Coord, p: Projection): (r: Coord)
    requires p.zoomNum != 0
    ensures r.coordType == World && WholeOffsets(r, p)
  {
    var pt, c0, c1 := CToW(p, c.x, c.y), CToW(p, c.x0, c.y0), CToW(p, c.x1, c.y1);
    Coord(pt.0, pt.1, c0.0, c0.1, c1.0, c1.1, World)
  }

  /** Each coordinate lies within one unit below the one it came from. */
  predicate WithinOneBelow(c: Coord, orig: Coord) {
    orig.x - 1.0 <= c.x <= orig.x && orig.y - 1.0 <= c.y <= orig.y &&
    orig.x0 - 1.0 <= c.x0 <= orig.x0 && orig.y0 - 1.0 <= c.y0 <= orig.y0 &&
    orig.x1 - 1.0 <= c.x1 <= orig.x1 && orig.y1 - 1.0 <= c.y1 <= orig.y1
  }

  /** Every coordinate is a whole number of units from the camera. */
  predicate WholeOffsets(c: Coord, p: Projection) {
    Integral(c.x - p.camX) && Integral(c.y - p.camY) &&
    Integral(c.x0 - p.camX) && Integral(c.y0 - p.camY) &&
    Integral(c.x1 - p.camX) && Integral(c.y1 - p.camY)
  }

  /** project_to("c") then project_to("w") moves point and rectangle by at most one unit. */
  lemma CoordRoundTrip(c: Coord, p: Projection)
    requires 0 < p.zoomDen <= p.zoomNum && WholeOffsets(c, p)
    ensures var back := CoordToWorld(CoordToCanvas(c, p), p);
            WithinOneBelow(back, c) && back.coordType == World
  {
    RoundTrip(p, c.x, c.y);
    RoundTrip(p, c.x0, c.y0);
    RoundTrip(p, c.x1, c.y1);
  }

  /** The operations that leave the snapshot stack alone (everything but reset, push and pop). */
  datatype Op =
    | SetZoom(zn: int, zd: int)
    | SetViewport(w: int, h: int)
    | SetXY(px: real, py: real)
    | LoadRect(src: string)
    | StoreRect(dst: string)
    | LoadPt(src: string)
    | StorePt(dst: string)
    | ProjectTo(space: string)
    | SlidePt(dx: real, dy: real)
    | SlideRect(dx: real, dy: real)
    | ExplodePt(size: real)

  // ---------------------------------------------------------------------
  // The machine
  // ---------------------------------------------------------------------

  /** The module's globals, one field per global; each function below updates them in place. */
  class Machine {
    var coord: Coord
    var cam: Camera
    var view: View
    var bbox: (real, real, real, real)
    var labelCoord: (real, real)
    var event: (real, real)
    var stack: seq<Snap>

    function State(): MachineState
      reads this
    {
      MachineState(coord, cam, view, bbox, labelCoord, event, stack)
    }

    ghost predicate Valid()
      reads this
    {
      WellTagged(State())
    }

    constructor ()
      ensures Valid() && State() == Initial
    {
      coord, cam, view := Initial.coord, Initial.cam, Initial.view;
      bbox, labelCoord, event, stack := Initial.bbox, Initial.labelCoord, Initial.event, [];
    }

    /** coord_reset_state: every global back to its default. */
    method Reset()
      modifies this
      ensures Valid() && State() == Initial
    {
      coord, cam, view := Initial.coord, Initial.cam, Initial.view;
      bbox, labelCoord, event, stack := Initial.bbox, Initial.labelCoord, Initial.event, [];
    }

    /** Sets the zoom ratio verbatim: no reduction, no zero check. */
    method SetZoom(zn: int, zd: int)
      requires Valid()
      modifies this
      ensures Valid()
      ensures State() == old(State()).(cam := old(cam).(zoomNum := zn, zoomDen := zd))
    {
      cam := cam.(zoomNum := zn, zoomDen := zd);
    }

    method SetViewport(w: int, h: int)
      requires Valid()
      modifies this
      ensures Valid()
      ensures State() == old(State()).(view := View(w, h))
    {
      view := View(w, h);
    }

    /** Sets the point register; the space tag is untouched. */
    method SetXY(px: real, py: real)
      requires Valid()
      modifies this
      ensures Valid()
      ensures State() == old(State()).(coord := old(coord).(x := px, y := py))
    {
      coord := coord.(x := px, y := py);
    }

    /** "attachment" copies the attachment box into the rectangle and tags it world. */
    method LoadRect(src: string) returns (r: Outcome<CoordError>)
      requires Valid()
      modifies this
      ensures Valid()
      ensures src == "attachment" ==>
        r == Pass &&
        State() == old(State()).(coord := old(coord).(x0 := old(bbox).0, y0 := old(bbox).1,
                                                      x1 := old(bbox).2, y1 := old(bbox).3,
                                                      coordType := World))
      ensures src != "attachment" ==> r == Fail(UnknownSource(src)) && State() == old(State())
    {
      if src == "attachment" {
        coord := coord.(x0 := bbox.0, y0 := bbox.1, x1 := bbox.2, y1 := bbox.3, coordType := World);
        r := Pass;
      } else {
        r := Fail(UnknownSource(src));
      }
    }

    /** "attachment" receives the rectangle, but only from world space. */
    method StoreRect(dst: string) returns (r: Outcome<CoordError>)
      requires Valid()
      modifies this
      ensures Valid()
      ensures dst == "attachment" && old(coord.coordType) == World ==>
        r == Pass &&
        State() == old(State()).(bbox := (old(coord.x0), old(coord.y0), old(coord.x1), old(coord.y1)))
      ensures dst == "attachment" && old(coord.coordType) != World ==>
        r == Fail(WrongSpace) && State() == old(State())
      ensures dst != "attachment" ==> r == Fail(UnknownDestination(dst)) && State() == old(State())
    {
      if dst == "attachment" {
        if coord.coordType != World {
          r := Fail(WrongSpace);
          return;
        }
        bbox := (coord.x0, coord.y0, coord.x1, coord.y1);
        r := Pass;
      } else {
        r := Fail(UnknownDestination(dst));
      }
    }

    /**
     * Loads the point from a named source.  "event" and "label" also set the
     * space tag; the geometric sources read the rectangle and change nothing
     * but the point.
     */
    method LoadPt(src: string) returns (r: Outcome<CoordError>)
      requires Valid()
      modifies this
      ensures Valid()
      ensures r == Pass <==> src in PointSources
      ensures src !in PointSources ==> r == Fail(UnknownSource(src)) && State() == old(State())
      ensures src in PointSources ==> State() == old(State()).(coord := coord)
      ensures var c := old(coord);
        && (src == "event" ==> coord == c.(x := old(event).0, y := old(event).1, coordType := Canvas))
        && (src == "label" ==> coord == c.(x := old(labelCoord).0, y := old(labelCoord).1, coordType := World))
        && (src == "center" ==> coord == c.(x := FloorDiv(c.x0 + c.x1, 2), y := FloorDiv(c.y0 + c.y1, 2)))
        && (src == "center-south" ==> coord == c.(x := FloorDiv(c.x0 + c.x1, 2), y := c.y1))
        && (src == "nw" ==> coord == c.(x := c.x0, y := c.y0))
        && (src == "ne" ==> coord == c.(x := c.x1, y := c.y0))
        && (src == "se" ==> coord == c.(x := c.x1, y := c.y1))
        && (src == "sw" ==> coord == c.(x := c.x0, y := c.y1))
    {
      r := Pass;
      if src == "event" {
        coord := coord.(x := event.0, y := event.1, coordType := Canvas);
        return;
      }
      var x0, y0, x1, y1 := coord.x0, coord.y0, coord.x1, coord.y1;
      if src == "center" {
        coord := coord.(x := FloorDiv(x0 + x1, 2), y := FloorDiv(y0 + y1, 2));
      } else if src == "center-south" {
        coord := coord.(x := FloorDiv(x0 + x1, 2), y := y1);
      } else if src == "nw" {
        coord := coord.(x := x0, y := y0);
      } else if src == "ne" {
        coord := coord.(x := x1, y := y0);
      } else if src == "se" {
        coord := coord.(x := x1, y := y1);
      } else if src == "sw" {
        coord := coord.(x := x0, y := y1);
      } else if src == "label" {
        coord := coord.(x := labelCoord.0, y := labelCoord.1, coordType := World);
      } else {
        r := Fail(UnknownSource(src));
      }
    }

    /**
     * Stores the point into a named destination.  A corner overwrites only that
     * corner; "center" moves the rectangle, keeping its size, so that its exact
     * midpoint is the point; "cam" moves the camera and leaves the zoom.
     */
    method StorePt(dst: string) returns (r: Outcome<CoordError>)
      requires Valid()
      modifies this
      ensures Valid()
      ensures r == Pass <==> dst in PointDestinations
      ensures dst !in PointDestinations ==>
        r == Fail(UnknownDestination(dst)) && State() == old(State())
      ensures dst != "cam" ==> State() == old(State()).(coord := coord)
      ensures dst == "cam" ==> State() == old(State()).(cam := old(cam).(x := old(coord.x), y := old(coord.y)))
      ensures var c := old(coord);
        && (dst == "center" ==>
              coord.x == c.x && coord.y == c.y && coord.coordType == c.coordType &&
              coord.x1 - coord.x0 == c.x1 - c.x0 && coord.y1 - coord.y0 == c.y1 - c.y0 &&
              (coord.x0 + coord.x1) / 2.0 == c.x && (coord.y0 + coord.y1) / 2.0 == c.y)
        && (dst == "nw" ==> coord == c.(x0 := c.x, y0 := c.y))
        && (dst == "ne" ==> coord == c.(x1 := c.x, y0 := c.y))
        && (dst == "se" ==> coord == c.(x1 := c.x, y1 := c.y))
        && (dst == "sw" ==> coord == c.(x0 := c.x, y1 := c.y))
    {
      r := Pass;
      var x, y := coord.x, coord.y;
      if dst == "center" {
        var cx := (coord.x0 + coord.x1) / 2.0;
        var cy := (coord.y0 + coord.y1) / 2.0;
        var dx, dy := x - cx, y - cy;
        coord := coord.(x0 := coord.x0 + dx, y0 := coord.y0 + dy, x1 := coord.x1 + dx, y1 := coord.y1 + dy);
        return;
      }
      if dst == "nw" {
        coord := coord.(x0 := x, y0 := y);
      } else if dst == "ne" {
        coord := coord.(x1 := x, y0 := y);
      } else if dst == "se" {
        coord := coord.(x1 := x, y1 := y);
      } else if dst == "sw" {
        coord := coord.(x0 := x, y1 := y);
      } else if dst == "cam" {
        cam := cam.(x := x, y := y);
      } else {
        r := Fail(UnknownDestination(dst));
      }
    }

    /**
     * Projects the point and both rectangle corners into space `dst` and tags
     * them with it.  Projecting into the current space does nothing; any
     * transition other than world <-> canvas fails; a zero divisor fails before
     * any register changes.
     */
    method ProjectTo(dst: string) returns (r: Outcome<CoordError>)
      requires Valid()
      modifies this
      ensures Valid()
      ensures var src, p := old(coord.coordType), ProjectionOf(old(cam), old(view));
        if src == dst then
          r == Pass && State() == old(State())
        else if src == World && dst == Canvas && p.zoomDen != 0 then
          r == Pass && State() == old(State()).(coord := CoordToCanvas(old(coord), p))
        else if src == Canvas && dst == World && p.zoomNum != 0 then
          r == Pass && State() == old(State()).(coord := CoordToWorld(old(coord), p))
        else if IsSpace(dst) then
          r == Fail(ZeroDivision) && State() == old(State())
        else
          r == Fail(InvalidTransition(src, dst)) && State() == old(State())
    {
      var src := coord.coordType;
      if src == dst {
        return Pass;
      }
      var p := ProjectionOf(cam, view);
      if src == World && dst == Canvas {
        if p.zoomDen == 0 {
          return Fail(ZeroDivision);
        }
        coord := CoordToCanvas(coord, p);
      } else if src == Canvas && dst == World {
        if p.zoomNum == 0 {
          return Fail(ZeroDivision);
        }
        coord := CoordToWorld(coord, p);
      } else {
        return Fail(InvalidTransition(src, dst));
      }
      r := Pass;
    }

    /** Moves the point by (dx, dy) in whatever space it is in. */
    method SlidePt(dx: real, dy: real)
      requires Valid()
      modifies this
      ensures Valid()
      ensures State() == old(State()).(coord := old(coord).(x := old(coord.x) + dx, y := old(coord.y) + dy))
    {
      coord := coord.(x := coord.x + dx, y := coord.y + dy);
    }

    /** Moves both rectangle corners by (dx, dy). */
    method SlideRect(dx: real, dy: real)
      requires Valid()
      modifies this
      ensures Valid()
      ensures State() == old(State()).(coord := old(coord).(x0 := old(coord.x0) + dx, y0 := old(coord.y0) + dy,
                                                           x1 := old(coord.x1) + dx, y1 := old(coord.y1) + dy))
    {
      coord := coord.(x0 := coord.x0 + dx, y0 := coord.y0 + dy, x1 := coord.x1 + dx, y1 := coord.y1 + dy);
    }

    /** Makes the rectangle the square of half-side `size` centred on the point. */
    method ExplodePt(size: real)
      requires Valid()
      modifies this
      ensures Valid()
      ensures State() == old(State()).(coord := coord)
      ensures coord.x == old(coord.x) && coord.y == old(coord.y) && coord.coordType == old(coord.coordType)
      ensures coord.x1 - coord.x0 == 2.0 * size && coord.y1 - coord.y0 == 2.0 * size
      ensures (coord.x0 + coord.x1) / 2.0 == coord.x && (coord.y0 + coord.y1) / 2.0 == coord.y
    {
      var x, y := coord.x, coord.y;
      coord := coord.(x0 := x - size, y0 := y - size, x1 := x + size, y1 := y + size);
    }

    method PushPt()
      requires Valid()
      modifies this
      ensures Valid()
      ensures State() == old(State()).(stack := old(stack) + [PtSnap(old(coord.x), old(coord.y), old(coord.coordType))])
    {
      stack := stack + [PtSnap(coord.x, coord.y, coord.coordType)];
    }

    /**
     * Restores `(x, y, tag)` from the top snapshot.  The entry is removed before
     * it is unpacked, so a rectangle snapshot is lost and nothing else changes.
     */
    method PopPt() returns (r: Outcome<CoordError>)
      requires Valid()
      modifies this
      ensures Valid()
      ensures old(stack) == [] ==> r == Fail(StackUnderflow) && State() == old(State())
      ensures old(stack) != [] ==>
        var top, rest := old(stack)[|old(stack)| - 1], old(stack)[..|old(stack)| - 1];
        if top.PtSnap? then
          r == Pass &&
          State() == old(State()).(coord := old(coord).(x := top.x, y := top.y, coordType := top.tag), stack := rest)
        else
          r == Fail(WrongSnapshotKind) && State() == old(State()).(stack := rest)
    {
      if stack == [] {
        return Fail(StackUnderflow);
      }
      var top := stack[|stack| - 1];
      stack := stack[..|stack| - 1];
      if !top.PtSnap? {
        return Fail(WrongSnapshotKind);
      }
      coord := coord.(x := top.x, y := top.y, coordType := top.tag);
      r := Pass;
    }

    method PushRect()
      requires Valid()
      modifies this
      ensures Valid()
      ensures State() == old(State()).(
        stack := old(stack) + [RectSnap(old(coord.x0), old(coord.y0), old(coord.x1), old(coord.y1), old(coord.coordType))])
    {
      stack := stack + [RectSnap(coord.x0, coord.y0, coord.x1, coord.y1, coord.coordType)];
    }

    /** Restores `(x0, y0, x1, y1, tag)` from the top snapshot; see PopPt for the other kind. */
    method PopRect() returns (r: Outcome<CoordError>)
      requires Valid()
      modifies this
      ensures Valid()
      ensures old(stack) == [] ==> r == Fail(StackUnderflow) && State() == old(State())
      ensures old(stack) != [] ==>
        var top, rest := old(stack)[|old(stack)| - 1], old(stack)[..|old(stack)| - 1];
        if top.RectSnap? then
          r == Pass &&
          State() == old(State()).(coord := old(coord).(x0 := top.x0, y0 := top.y0, x1 := top.x1, y1 := top.y1,
                                                        coordType := top.tag), stack := rest)
        else
          r == Fail(WrongSnapshotKind) && State() == old(State()).(stack := rest)
    {
      if stack == [] {
        return Fail(StackUnderflow);
      }
      var top := stack[|stack| - 1];
      stack := stack[..|stack| - 1];
      if !top.RectSnap? {
        return Fail(WrongSnapshotKind);
      }
      coord := coord.(x0 := top.x0, y0 := top.y0, x1 := top.x1, y1 := top.y1, coordType := top.tag);
      r := Pass;
    }

    function GetXY(): (p: (real, real))
      reads this
      ensures p.0 == coord.x && p.1 == coord.y
    {
      (coord.x, coord.y)
    }

    function GetXYXY(): (b: (real, real, real, real))
      reads this
      ensures b.0 == coord.x0 && b.1 == coord.y0 && b.2 == coord.x1 && b.3 == coord.y1
    {
      (coord.x0, coord.y0, coord.x1, coord.y1)
    }

    // -------------------------------------------------------------------
    // Composite behaviour
    // -------------------------------------------------------------------

    /** Runs one stack-neutral operation. */
    method Exec(op: Op) returns (r: Outcome<CoordError>)
      requires Valid()
      modifies this
      ensures Valid() && stack == old(stack)
    {
      r := Pass;
      match op
      case SetZoom(zn, zd) => this.SetZoom(zn, zd);
      case SetViewport(w, h) => this.SetViewport(w, h);
      case SetXY(px, py) => this.SetXY(px, py);
      case LoadRect(src) => r := this.LoadRect(src);
      case StoreRect(dst) => r := this.StoreRect(dst);
      case LoadPt(src) => r := this.LoadPt(src);
      case StorePt(dst) => r := this.StorePt(dst);
      case ProjectTo(space) => r := this.ProjectTo(space);
      case SlidePt(dx, dy) => this.SlidePt(dx, dy);
      case SlideRect(dx, dy) => this.SlideRect(dx, dy);
      case ExplodePt(size) => this.ExplodePt(size);
    }

    /** push_pt, any stack-neutral operations, pop_pt: the point and its tag come back exactly. */
    method PushPtRunPopPt(ops: seq<Op>) returns (r: Outcome<CoordError>)
      requires Valid()
      modifies this
      ensures Valid()
      ensures r == Pass && stack == old(stack)
      ensures coord.x == old(coord.x) && coord.y == old(coord.y) && coord.coordType == old(coord.coordType)
    {
      PushPt();
      for i := 0 to |ops|
        invariant Valid()
        invariant stack == old(stack) + [PtSnap(old(coord.x), old(coord.y), old(coord.coordType))]
      {
        var _ := Exec(ops[i]);
      }
      r := PopPt();
    }

    /** push_rect, any stack-neutral operations, pop_rect: the rectangle and its tag come back exactly. */
    method PushRectRunPopRect(ops: seq<Op>) returns (r: Outcome<CoordError>)
      requires Valid()
      modifies this
      ensures Valid()
      ensures r == Pass && stack == old(stack)
      ensures coord.x0 == old(coord.x0) && coord.y0 == old(coord.y0)
      ensures coord.x1 == old(coord.x1) && coord.y1 == old(coord.y1)
      ensures coord.coordType == old(coord.coordType)
    {
      PushRect();
      for i := 0 to |ops|
        invariant Valid()
        invariant stack == old(stack) +
          [RectSnap(old(coord.x0), old(coord.y0), old(coord.x1), old(coord.y1), old(coord.coordType))]
      {
        var _ := Exec(ops[i]);
      }
      r := PopRect();
    }

    /**
     * Projecting to canvas and back to world returns every coordinate to within
     * one unit below where it was, for a zoom of at least 1 and a point and
     * rectangle a whole number of units from the camera.
     */
    method ProjectRoundTrip() returns (r: Outcome<CoordError>)
      requires Valid() && coord.coordType == World
      requires 0 < cam.zoomDen <= cam.zoomNum
      requires WholeOffsets(coord, ProjectionOf(cam, view))
      modifies this
      ensures Valid() && r == Pass && coord.coordType == World
      ensures WithinOneBelow(coord, old(coord))
      ensures State() == old(State()).(coord := coord)
    {
      CoordRoundTrip(coord, ProjectionOf(cam, view));
      r := ProjectTo(Canvas);
      r := ProjectTo(World);
    }
  }

  // -----------------------------------------------------------------------
  // Worked examples
  // -----------------------------------------------------------------------

  /**
   * Viewport 100x80, zoom 1/1, point (10, 20), rectangle (0, 0, 10, 20) in
   * world space: projecting to canvas gives (60, 60) and (50, 40, 60, 60).
   */
  method ProjectExample() returns (pt: (real, real), rect: (real, real, real, real))
    ensures pt == (60.0, 60.0) && rect == (50.0, 40.0, 60.0, 60.0)
  {
    var m := new Machine();
    m.SetViewport(100, 80);
    m.SetZoom(1, 1);
    var start := Coord(10.0, 20.0, 0.0, 0.0, 10.0, 20.0, World);
    m.coord := start;
    var p := ProjectionOf(m.cam, m.view);
    FloorDivWhole(100, 2);
    FloorDivWhole(80, 2);
    assert p == Projection(0.0, 0.0, 1, 1, 50.0, 40.0);
    UnitZoomIsTranslation(p, 10.0, 20.0);
    UnitZoomIsTranslation(p, 0.0, 0.0);
    assert CoordToCanvas(start, p) == Coord(60.0, 60.0, 50.0, 40.0, 60.0, 60.0, Canvas);
    var r := m.ProjectTo(Canvas);
    assert m.coord == CoordToCanvas(start, p);
    pt, rect := m.GetXY(), m.GetXYXY();
  }

  /** The floor of an exact midpoint that is a whole number is that midpoint. */
  lemma WholeMidpoint(a: real, b: real, m: real)
    requires Integral(m) && a + b == 2.0 * m
    ensures FloorDiv(a + b, 2) == m
  {
    var u := m.Floor;
    assert a + b == (2 * u) as real;
    FloorDivWhole(2 * u, 2);
  }

  /**
   * Storing an integral point to "center" and loading "center" back gives the
   * same point: the floor of the new exact midpoint is the point itself.
   */
  method CenterStoreLoad(m: Machine) returns (r: Outcome<CoordError>)
    requires m.Valid() && Integral(m.coord.x) && Integral(m.coord.y)
    modifies m
    ensures m.Valid() && r == Pass
    ensures m.coord.x == old(m.coord.x) && m.coord.y == old(m.coord.y)
    ensures m.coord.x1 - m.coord.x0 == old(m.coord.x1 - m.coord.x0)
    ensures m.coord.y1 - m.coord.y0 == old(m.coord.y1 - m.coord.y0)
  {
    r := m.StorePt("center");
    WholeMidpoint(m.coord.x0, m.coord.x1, m.coord.x);
    WholeMidpoint(m.coord.y0, m.coord.y1, m.coord.y);
    r := m.LoadPt("center");
  }
}
