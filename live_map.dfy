/** The simulated live map: a fixed table of campus landmarks, one marker per
    shuttle, and the tick that steers each marker toward its target landmark
    and bounces it off the map edges. Also the colour lookup and the id tag
    used when a marker is drawn. */
module LiveMap {
  import opened Chance
  import opened Text
  import ShuttleContext

  datatype Landmark = Landmark(name: string, x: real, y: real)

  /** The campus landmarks markers steer toward. */
  const Landmarks: seq<Landmark> := [
    Landmark("Bethel Splendor Hall", 420.0, 100.0),
    Landmark("Winslow Hall", 360.0, 140.0),
    Landmark("White Hall", 650.0, 160.0),
    Landmark("Nyberg Hall", 600.0, 200.0),
    Landmark("Crystal Hall", 720.0, 260.0),
    Landmark("Platinum Hall", 620.0, 260.0),
    Landmark("Busa House", 480.0, 240.0),
    Landmark("Babcock Amphitheatre", 580.0, 320.0),
    Landmark("Babcock University Registry", 480.0, 420.0),
    Landmark("Biochemistry Research Lab", 580.0, 480.0),
    Landmark("Babcock Guest House", 280.0, 280.0),
    Landmark("Blessed Naira", 120.0, 120.0),
    Landmark("Babcock University Teaching Hospital", 140.0, 320.0),
    Landmark("Andrews Park", 380.0, 480.0)
  ]

  /** A marker that is this close to its target has arrived. */
  const ArrivalRadius: real := 15.0
  /** The length of a steered velocity, per tick. */
  const Speed: real := 1.2

  const MinX: real := 20.0
  const MaxX: real := 780.0
  const MinY: real := 20.0
  const MaxY: real := 520.0

  /** Every landmark lies well inside the map: in [120,720] x [100,480]. */
  lemma LandmarksInside(k: nat)
    requires k < |Landmarks|
    ensures 120.0 <= Landmarks[k].x <= 720.0 && 100.0 <= Landmarks[k].y <= 480.0
  {
  }

  datatype Marker = Marker(
    id: int,
    x: real,
    y: real,
    vx: real,
    vy: real,
    color: string,
    targetIndex: int)

  predicate ValidTarget(m: Marker) {
    0 <= m.targetIndex < |Landmarks|
  }

  predicate InBounds(m: Marker) {
    MinX <= m.x <= MaxX && MinY <= m.y <= MaxY
  }

  function Abs(v: real): real {
    if v < 0.0 then -v else v
  }

  // ---------------------------------------------------------------------
  // Initialisation

  /** The five `Math.random()` draws one new marker consumes, in call order. */
  datatype InitDraw = InitDraw(x: real, y: real, vx: real, vy: real, target: real)

  predicate UnitInitDraw(d: InitDraw) {
    IsUnit(d.x) && IsUnit(d.y) && IsUnit(d.vx) && IsUnit(d.vy) && IsUnit(d.target)
  }

  function NewMarker(s: ShuttleContext.Shuttle, d: InitDraw): Marker
    requires UnitInitDraw(d)
  {
    Marker(
      s.id,
      d.x * 700.0 + 50.0,
      d.y * 500.0 + 50.0,
      (d.vx - 0.5) * 1.5,
      (d.vy - 0.5) * 1.5,
      s.color,
      Pick(d.target, |Landmarks|))
  }

  /** One marker per shuttle, in order, with the shuttle's id and colour, a
      position in [50,750) x [50,550), each velocity component in
      [-0.75,0.75) and a valid target. */
  function InitMarkers(shuttles: seq<ShuttleContext.Shuttle>, draws: seq<InitDraw>): (markers: seq<Marker>)
    requires |draws| == |shuttles|
    requires forall i :: 0 <= i < |draws| ==> UnitInitDraw(draws[i])
    ensures |markers| == |shuttles|
    ensures forall i :: 0 <= i < |markers| ==>
      && markers[i].id == shuttles[i].id
      && markers[i].color == shuttles[i].color
      && 50.0 <= markers[i].x < 750.0
      && 50.0 <= markers[i].y < 550.0
      && -0.75 <= markers[i].vx < 0.75
      && -0.75 <= markers[i].vy < 0.75
      && ValidTarget(markers[i])
  {
    if shuttles == [] then []
    else [NewMarker(shuttles[0], draws[0])] + InitMarkers(shuttles[1..], draws[1..])
  }

  /** Initialisation does not establish the bound the tick keeps: a fresh
      marker can start past the 520 edge. */
  lemma InitCanStartOutside(s: ShuttleContext.Shuttle)
    ensures !InBounds(InitMarkers([s], [InitDraw(0.0, 0.99, 0.5, 0.5, 0.0)])[0])
  {
    var m := InitMarkers([s], [InitDraw(0.0, 0.99, 0.5, 0.5, 0.0)])[0];
    assert m == NewMarker(s, InitDraw(0.0, 0.99, 0.5, 0.5, 0.0));
    assert m.y == 545.0;
  }

  // ---------------------------------------------------------------------
  // The tick

  /** The landmark a marker is heading for. */
  function Target(m: Marker): Landmark
    requires ValidTarget(m)
  {
    Landmarks[m.targetIndex]
  }

  /** The squared distance from a marker to a landmark. */
  function DistSq(m: Marker, t: Landmark): real {
    (t.x - m.x) * (t.x - m.x) + (t.y - m.y) * (t.y - m.y)
  }

  /** What `Math.sqrt` promises: a non-negative root. */
  predicate IsSqrtOf(root: real, x: real) {
    root >= 0.0 && root * root == x
  }

  /** One axis of the bounce: a tentative coordinate `p` past an edge is put
      on the edge and its velocity `v` turned inward, keeping its size. */
  function Bounce(p: real, v: real, lo: real, hi: real): (r: (real, real))
    requires lo <= hi
    ensures lo <= r.0 <= hi && Abs(r.1) == Abs(v)
    ensures p < lo ==> r.0 == lo && r.1 >= 0.0
    ensures p > hi ==> r.0 == hi && r.1 <= 0.0
    ensures lo <= p <= hi ==> r == (p, v)
  {
    if p < lo then (lo, Abs(v))
    else if p > hi then (hi, -Abs(v))
    else (p, v)
  }

  /** The velocity of a marker steered toward `t`: the direction to `t`
      scaled to `Speed`, for `dist` the length of that direction. */
  function Heading(m: Marker, t: Landmark, dist: real): (real, real)
    requires dist != 0.0
  {
    ((t.x - m.x) / dist * Speed, (t.y - m.y) / dist * Speed)
  }

  /** The marker after one tick toward its target landmark `t`, given the
      distance `dist` to it and the draw used if it has arrived. */
  function Stepped(m: Marker, t: Landmark, dist: real, draw: real): (r: Marker)
    requires IsUnit(draw)
    ensures r.id == m.id && r.color == m.color
    ensures dist <= ArrivalRadius ==> r.(targetIndex := m.targetIndex) == m && ValidTarget(r)
    ensures dist > ArrivalRadius ==> r.targetIndex == m.targetIndex
  {
    if dist > ArrivalRadius then
      var h := Heading(m, t, dist);
      var alongX := Bounce(m.x + h.0, h.0, MinX, MaxX);
      var alongY := Bounce(m.y + h.1, h.1, MinY, MaxY);
      m.(x := alongX.0, y := alongY.0, vx := alongX.1, vy := alongY.1)
    else
      m.(targetIndex := Pick(draw, |Landmarks|))
  }

  /** After a tick a marker is on the map, whatever its state before:
      a steered marker by the bounce, an arrived one because it is within 15
      of its target, and the target lies in [120,720] x [100,480]. */
  lemma SteppedInBounds(m: Marker, t: Landmark, dist: real, draw: real)
    requires IsUnit(draw) && IsSqrtOf(dist, DistSq(m, t))
    requires 120.0 <= t.x <= 720.0 && 100.0 <= t.y <= 480.0
    ensures InBounds(Stepped(m, t, dist, draw))
  {
    if dist <= ArrivalRadius {
      var dx, dy := t.x - m.x, t.y - m.y;
      assert dist * dist == dx * dx + dy * dy;
      SquareMonotone(dist, ArrivalRadius);
      EachSquareBelow(dx, dy, dist * dist, ArrivalRadius * ArrivalRadius);
      SquareBound(dx, ArrivalRadius);
      SquareBound(dy, ArrivalRadius);
    }
  }

  /** A steered marker moves at exactly `Speed`; its velocity is the heading
      up to the sign flips of the bounce, and exactly the heading on an axis
      that did not hit an edge. */
  lemma SteeringVelocity(m: Marker, t: Landmark, dist: real, draw: real)
    requires IsUnit(draw) && IsSqrtOf(dist, DistSq(m, t)) && dist > ArrivalRadius
    ensures var r := Stepped(m, t, dist, draw);
      var h := Heading(m, t, dist);
      && r.vx * r.vx + r.vy * r.vy == Speed * Speed
      && Abs(r.vx) == Abs(h.0) && Abs(r.vy) == Abs(h.1)
      && (MinX <= m.x + h.0 <= MaxX ==> r.vx == h.0)
      && (MinY <= m.y + h.1 <= MaxY ==> r.vy == h.1)
  {
    var r := Stepped(m, t, dist, draw);
    var h := Heading(m, t, dist);
    SteeringAxes(m, t, dist, draw);
    HeadingSpeedOf(m, t, dist);
    SpeedKept(r.vx, h.0, r.vy, h.1);
  }

  /** When steering, each axis keeps the heading's size, and is exactly the
      heading if it did not hit an edge. */
  lemma SteeringAxes(m: Marker, t: Landmark, dist: real, draw: real)
    requires IsUnit(draw) && dist > ArrivalRadius
    ensures var r := Stepped(m, t, dist, draw);
      var h := Heading(m, t, dist);
      && Abs(r.vx) == Abs(h.0) && Abs(r.vy) == Abs(h.1)
      && (MinX <= m.x + h.0 <= MaxX ==> r.vx == h.0)
      && (MinY <= m.y + h.1 <= MaxY ==> r.vy == h.1)
  {
  }

  /** The heading toward `t` has length `Speed`. */
  lemma HeadingSpeedOf(m: Marker, t: Landmark, dist: real)
    requires IsSqrtOf(dist, DistSq(m, t)) && dist > ArrivalRadius
    ensures Heading(m, t, dist).0 * Heading(m, t, dist).0 + Heading(m, t, dist).1 * Heading(m, t, dist).1 == Speed * Speed
  {
    HeadingSpeed(t.x - m.x, t.y - m.y, dist);
  }

  lemma SpeedKept(a: real, h0: real, b: real, h1: real)
    requires Abs(a) == Abs(h0) && Abs(b) == Abs(h1)
    requires h0 * h0 + h1 * h1 == Speed * Speed
    ensures a * a + b * b == Speed * Speed
  {
    SameMagnitude(a, h0, b, h1);
  }

  /** A steered marker whose tentative position crosses an edge lands on that
      edge with its velocity turned back inward. */
  lemma SteeringReflects(m: Marker, t: Landmark, dist: real, draw: real)
    requires IsUnit(draw) && dist > ArrivalRadius
    ensures var r := Stepped(m, t, dist, draw);
      var tx := m.x + Heading(m, t, dist).0;
      var ty := m.y + Heading(m, t, dist).1;
      && (tx < MinX ==> r.x == MinX && r.vx >= 0.0)
      && (tx > MaxX ==> r.x == MaxX && r.vx <= 0.0)
      && (ty < MinY ==> r.y == MinY && r.vy >= 0.0)
      && (ty > MaxY ==> r.y == MaxY && r.vy <= 0.0)
  {
  }

  /** A steered marker moves by its heading on every axis that stays within
      the edges. */
  lemma SteeringMoves(m: Marker, t: Landmark, dist: real, draw: real)
    requires IsUnit(draw) && dist > ArrivalRadius
    ensures var r := Stepped(m, t, dist, draw);
      var h := Heading(m, t, dist);
      && (MinX <= m.x + h.0 <= MaxX ==> r.x == m.x + h.0)
      && (MinY <= m.y + h.1 <= MaxY ==> r.y == m.y + h.1)
  {
  }

  /** A marker at (100, 100) bound for Bethel Splendor Hall at (420, 100),
      320 away, moves 1.2 to the right in one tick. */
  lemma SteppingExample(draw: real)
    requires IsUnit(draw)
    ensures var m := Marker(1, 100.0, 100.0, 0.0, 0.0, "Blue", 0);
      && IsSqrtOf(320.0, DistSq(m, Target(m)))
      && Stepped(m, Target(m), 320.0, draw) == m.(x := 101.2, vx := 1.2, vy := 0.0)
  {
    var m := Marker(1, 100.0, 100.0, 0.0, 0.0, "Blue", 0);
    assert Target(m) == Landmark("Bethel Splendor Hall", 420.0, 100.0);
    assert Heading(m, Target(m), 320.0) == (1.2, 0.0);
  }

  /** One marker's tick, step by step: steer or pick a new target, then
      move and bounce each axis in turn. `sqrt` is the platform's square root. */
  method StepMarker(m: Marker, sqrt: real -> real, draw: real) returns (r: Marker)
    requires ValidTarget(m) && IsUnit(draw)
    ensures r == Stepped(m, Target(m), sqrt(DistSq(m, Target(m))), draw)
  {
    var landmark := Landmarks[m.targetIndex];
    var dx := landmark.x - m.x;
    var dy := landmark.y - m.y;
    var distance := sqrt(dx * dx + dy * dy);
    assert Target(m) == landmark && DistSq(m, landmark) == dx * dx + dy * dy;
    assert distance == sqrt(DistSq(m, Target(m)));

    if distance > ArrivalRadius {
      r := Steer(m, landmark, dx, dy, distance);
    } else {
      var newVx := m.vx;
      var newVy := m.vy;
      return m.(targetIndex := Pick(draw, |Landmarks|), vx := newVx, vy := newVy);
    }
  }

  /** The steering part of the tick toward `t`, from the offsets `dx`, `dy`
      and the distance: head toward `t` at `Speed`, then move and bounce. */
  method Steer(m: Marker, t: Landmark, dx: real, dy: real, distance: real) returns (r: Marker)
    requires dx == t.x - m.x && dy == t.y - m.y && distance > ArrivalRadius
    ensures r == Stepped(m, t, distance, 0.0)
  {
    var newVx := (dx / distance) * Speed;
    var newVy := (dy / distance) * Speed;
    assert (newVx, newVy) == Heading(m, t, distance);
    var newX, newY;
    newX, newVx := BounceAxis(m.x + newVx, newVx, MinX, MaxX);
    newY, newVy := BounceAxis(m.y + newVy, newVy, MinY, MaxY);
    r := m.(x := newX, y := newY, vx := newVx, vy := newVy);
  }

  /** The two bounce tests of one axis, in the order the tick runs them:
      first the low edge, then the high edge. */
  method BounceAxis(p: real, v: real, lo: real, hi: real) returns (p': real, v': real)
    requires lo <= hi
    ensures (p', v') == Bounce(p, v, lo, hi)
  {
    p', v' := p, v;
    if p' < lo { v' := Abs(v'); p' := lo; }
    if p' > hi { v' := -Abs(v'); p' := hi; }
  }

  /** The markers' state. */
  class LiveMapState {
    var markers: seq<Marker>

    ghost predicate Valid()
      reads this
    {
      forall i :: 0 <= i < |markers| ==> ValidTarget(markers[i])
    }

    constructor ()
      ensures Valid() && markers == []
    {
      markers := [];
    }

    /** The whole marker set is rebuilt when the shuttle list changes. */
    method ResetMarkers(shuttles: seq<ShuttleContext.Shuttle>, draws: seq<InitDraw>)
      requires |draws| == |shuttles|
      requires forall i :: 0 <= i < |draws| ==> UnitInitDraw(draws[i])
      modifies this
      ensures Valid() && markers == InitMarkers(shuttles, draws)
    {
      markers := InitMarkers(shuttles, draws);
    }

    /** One tick: every marker stepped, in place of the old list. `draws[i]`
        is the draw marker `i` uses if it has arrived. */
    method Tick(sqrt: real -> real, draws: seq<real>)
      requires Valid()
      requires |draws| == |markers|
      requires forall i :: 0 <= i < |draws| ==> IsUnit(draws[i])
      requires forall i :: 0 <= i < |markers| ==>
        IsSqrtOf(sqrt(DistSq(markers[i], Target(markers[i]))), DistSq(markers[i], Target(markers[i])))
      modifies this
      ensures Valid() && |markers| == |old(markers)|
      ensures forall i :: 0 <= i < |markers| ==>
        var m := old(markers)[i]; markers[i] == Stepped(m, Target(m), sqrt(DistSq(m, Target(m))), draws[i])
      ensures forall i :: 0 <= i < |markers| ==>
        InBounds(markers[i]) && markers[i].id == old(markers)[i].id && markers[i].color == old(markers)[i].color
    {
      var prev := markers;
      var next: seq<Marker> := [];
      var i := 0;
      while i < |prev|
        invariant 0 <= i <= |prev| && |next| == i
        invariant forall k :: 0 <= k < i ==>
          next[k] == Stepped(prev[k], Target(prev[k]), sqrt(DistSq(prev[k], Target(prev[k]))), draws[k])
        invariant forall k :: 0 <= k < i ==> ValidTarget(next[k])
        invariant forall k :: 0 <= k < i ==> InBounds(next[k])
      {
        var m := StepMarker(prev[i], sqrt, draws[i]);
        LandmarksInside(prev[i].targetIndex);
        SteppedInBounds(prev[i], Target(prev[i]), sqrt(DistSq(prev[i], Target(prev[i]))), draws[i]);
        next := next + [m];
        i := i + 1;
      }
      markers := next;
    }
  }

  // ---------------------------------------------------------------------
  // Colour and tag

  /** The hex colour for an unknown name. */
  const FallbackHex: string := "#999"

  /** The colour table consulted when a marker is drawn. */
  const RenderColorMap: map<string, string> := map[
    "White" := "#F5F5F5", "Blue" := "#3B82F6", "Green" := "#10B981", "Yellow" := "#FBBF24",
    "Black" := "#1F2937", "Silver" := "#D1D5DB", "Red" := "#EF4444", "Orange" := "#F97316"]

  /** The colour table behind `getColorHex`, used by the legend. */
  const LegendColorMap: map<string, string> := map[
    "White" := "#F5F5F5", "Blue" := "#3B82F6", "Green" := "#10B981", "Yellow" := "#FBBF24",
    "Black" := "#1F2937", "Silver" := "#D1D5DB", "Red" := "#EF4444", "Orange" := "#F97316"]

  /** `colorMap[name] || '#999'`. */
  function Lookup(table: map<string, string>, name: string): string {
    if name in table then table[name] else FallbackHex
  }

  /** The fill colour of a marker on the canvas. */
  function RenderColor(name: string): (hex: string)
    ensures name in ShuttleContext.Colors ==> |hex| == 7 && hex[0] == '#' && hex != FallbackHex
    ensures name !in ShuttleContext.Colors ==> hex == FallbackHex
  {
    Lookup(RenderColorMap, name)
  }

  /** `getColorHex`: the eight known names get a six-digit hex colour, every
      other name the gray fallback. */
  function GetColorHex(name: string): (hex: string)
    ensures name in ShuttleContext.Colors ==> |hex| == 7 && hex[0] == '#' && hex != FallbackHex
    ensures name !in ShuttleContext.Colors ==> hex == FallbackHex
  {
    Lookup(LegendColorMap, name)
  }

  /** The canvas and the legend colour a shuttle alike. */
  lemma ColorTablesAgree(name: string)
    ensures RenderColor(name) == GetColorHex(name)
  {
  }

  /** The tag drawn on a marker: the id, left-padded with '0' to three
      characters. */
  function IdLabel(id: int): (tag: string)
    ensures |tag| >= 3
    ensures AllDigits(tag) <==> id >= 0
  {
    var text := IntToString(id);
    var tag := PadStart(text, 3, '0');
    if id < 0 then
      assert tag[|tag| - |text|] == text[0] == '-';
      tag
    else
      tag
  }

  /** For a non-negative id the tag is all digits, exactly three of them
      below 1000, reads back as the id, and is `String(id)` itself once that
      has three or more characters. */
  lemma IdLabelDigits(id: nat)
    ensures var tag := IdLabel(id);
      && AllDigits(tag)
      && ParseDecimal(tag) == id
      && (id < 1000 ==> |tag| == 3)
      && (|NatToString(id)| >= 3 ==> tag == NatToString(id))
  {
    var s := NatToString(id);
    var tag := IdLabel(id);
    var z := tag[..|tag| - |s|];
    assert tag == z + s;
    ParseLeadingZeros(z, s);
    ParseNatToString(id);
    if id < 1000 {
      NatToStringShort(id);
    }
  }

  lemma {:induction false} NatToStringShort(n: nat)
    requires n < 1000
    ensures |NatToString(n)| <= 3
  {
    if n >= 10 {
      NatToStringShort(n / 10);
      if n < 100 {
        assert |NatToString(n / 10)| == 1;
      }
    }
  }

  // ---------------------------------------------------------------------
  // Real-arithmetic facts, each proved in a context small enough for the
  // solver's non-linear reasoning.

  lemma AbsSquare(v: real)
    ensures Abs(v) * Abs(v) == v * v
  {
  }

  /** Components of the same size give vectors of the same squared length. */
  lemma SameMagnitude(a: real, a': real, b: real, b': real)
    requires Abs(a) == Abs(a') && Abs(b) == Abs(b')
    ensures a * a + b * b == a' * a' + b' * b'
  {
    AbsSquare(a);
    AbsSquare(a');
    AbsSquare(b);
    AbsSquare(b');
  }

  lemma MulPos(x: real, y: real)
    requires x > 0.0 && y > 0.0
    ensures x * y > 0.0
  {
  }

  lemma SquareGrows(a: real, b: real)
    requires 0.0 <= b < a
    ensures b * b < a * a
  {
    assert a * a - b * b == (a - b) * (a + b);
    MulPos(a - b, a + b);
  }

  lemma SquareMonotone(a: real, b: real)
    requires 0.0 <= a <= b
    ensures a * a <= b * b
  {
    if a < b {
      SquareGrows(b, a);
    }
  }

  /** If a * a <= b * b with b >= 0, then a lies in [-b, b]. */
  lemma SquareBound(a: real, b: real)
    requires b >= 0.0 && a * a <= b * b
    ensures -b <= a <= b
  {
    if a > b {
      SquareGrows(a, b);
    } else if a < -b {
      SquareGrows(-a, b);
    }
  }

  lemma EachSquareBelow(a: real, b: real, sum: real, bound: real)
    requires sum == a * a + b * b && sum <= bound
    ensures a * a <= bound && b * b <= bound
  {
    SquareNonNegative(a);
    SquareNonNegative(b);
  }

  lemma SquareNonNegative(a: real)
    ensures a * a >= 0.0
  {
    if a < 0.0 {
      MulPos(-a, -a);
    } else if a > 0.0 {
      MulPos(a, a);
    }
  }

  lemma SquareOfProduct(u: real, d: real)
    ensures (u * d) * (u * d) == (u * u) * (d * d)
  {
  }

  lemma Distrib(a: real, b: real, p: real)
    ensures (a + b) * p == a * p + b * p
  {
  }

  lemma SquareEq(a: real, b: real)
    requires a == b
    ensures a * a == b * b
  {
  }

  lemma Quotient(x: real, d: real)
    requires d != 0.0
    ensures (x / d) * d == x
  {
  }

  lemma CancelSquare(s: real, d: real)
    requires d > 0.0
    requires s * (d * d) == d * d
    ensures s == 1.0
  {
    MulPos(d, d);
    assert (s - 1.0) * (d * d) == 0.0;
  }

  lemma UnitScaled(ux: real, uy: real, dx: real, dy: real, d: real)
    requires d > 0.0 && ux * d == dx && uy * d == dy && d * d == dx * dx + dy * dy
    ensures ux * ux + uy * uy == 1.0
  {
    SquareEq(ux * d, dx);
    SquareEq(uy * d, dy);
    SquareOfProduct(ux, d);
    SquareOfProduct(uy, d);
    Distrib(ux * ux, uy * uy, d * d);
    calc {
      (ux * ux + uy * uy) * (d * d);
      (ux * ux) * (d * d) + (uy * uy) * (d * d);
      (ux * d) * (ux * d) + (uy * d) * (uy * d);
      dx * dx + dy * dy;
      d * d;
    }
    CancelSquare(ux * ux + uy * uy, d);
  }

  /** (dx, dy) divided by its own length is a unit vector. */
  lemma UnitDirection(dx: real, dy: real, d: real)
    requires d > 0.0 && d * d == dx * dx + dy * dy
    ensures (dx / d) * (dx / d) + (dy / d) * (dy / d) == 1.0
  {
    Quotient(dx, d);
    Quotient(dy, d);
    UnitScaled(dx / d, dy / d, dx, dy, d);
  }

  /** Scaling a unit vector by k gives a vector of squared length k * k. */
  lemma ScaledUnit(ux: real, uy: real, k: real)
    requires ux * ux + uy * uy == 1.0
    ensures (ux * k) * (ux * k) + (uy * k) * (uy * k) == k * k
  {
    SquareOfProduct(ux, k);
    SquareOfProduct(uy, k);
    Distrib(ux * ux, uy * uy, k * k);
  }

  /** A direction divided by its length and scaled by `Speed` has length `Speed`. */
  lemma HeadingSpeed(dx: real, dy: real, dist: real)
    requires dist > 0.0 && dist * dist == dx * dx + dy * dy
    ensures (dx / dist * Speed) * (dx / dist * Speed) + (dy / dist * Speed) * (dy / dist * Speed) == Speed * Speed
  {
    UnitDirection(dx, dy, dist);
    ScaledUnit(dx / dist, dy / dist, Speed);
  }
}
