/**
 * The arithmetic of the post-processing curve editor, separated from its GUI:
 * keyframes and tangents, the affine maps between curve space and canvas space,
 * the segments the editor draws, the time clamping of a moved key, the tangent
 * produced by dragging a tangent handle, the link decision, and the neighbour
 * search used to estimate the slope of a curve at a time.
 */
module CurveMath {
  import opened Common

  /** A tangent (slope) of a key: Unity stores it as a float that may be infinite. */
  datatype Tangent = Finite(slope: real) | PosInf | NegInf {
    predicate IsInfinity() { !Finite? }
  }

  datatype Keyframe = Keyframe(time: real, value: real, inTangent: Tangent, outTangent: Tangent)

  /** The keys of an AnimationCurve, in the order the curve stores them. */
  type Curve = seq<Keyframe>

  /** A point of the plane (the editor only ever uses the x and y of its Vector3 values). */
  datatype Vec2 = Vec2(x: real, y: real)

  /** Unity's Rect: origin and size; xMax and yMax are origin plus size. */
  datatype Rect = Rect(x: real, y: real, width: real, height: real) {
    function XMin(): real { x }
    function YMin(): real { y }
    function XMax(): real { x + width }
    function YMax(): real { y + height }
    predicate Contains(p: Vec2) { XMin() <= p.x <= XMax() && YMin() <= p.y <= YMax() }
  }

  /** Which tangent handle of a key is being dragged. */
  datatype TangentSide = In | Out

  /** Mathf.Approximately, left uninterpreted: the model is parametric in it. */
  type Approx = (real, real) -> bool

  // ---------------------------------------------------------------------------
  // Mathf.Lerp and the coordinate transforms

  /** Mathf.Lerp clamps its parameter to [0, 1]. */
  function Clamp01(t: real): (r: real)
    ensures 0.0 <= r <= 1.0
    ensures 0.0 <= t <= 1.0 ==> r == t
  {
    if t < 0.0 then 0.0 else if t > 1.0 then 1.0 else t
  }

  function Lerp(a: real, b: real, t: real): (r: real)
    ensures Min(a, b) <= r <= Max(a, b)
    ensures 0.0 <= t <= 1.0 ==> r == a + (b - a) * t
  {
    var c := Clamp01(t);
    var k := b - a;
    ScaleByUnit(k, c);
    OffsetBetween(a, b, k * c);
    a + k * c
  }

  /** Adding to `a` an offset between 0 and b - a stays between a and b. */
  lemma OffsetBetween(a: real, b: real, d: real)
    requires b - a >= 0.0 ==> 0.0 <= d <= b - a
    requires b - a < 0.0 ==> b - a <= d <= 0.0
    ensures Min(a, b) <= a + d <= Max(a, b)
  {
  }

  /** Scaling by a factor in [0, 1] stays between 0 and the scaled number. */
  lemma ScaleByUnit(k: real, c: real)
    requires 0.0 <= c <= 1.0
    ensures k >= 0.0 ==> 0.0 <= k * c <= k
    ensures k < 0.0 ==> k <= k * c <= 0.0
  {
    if k >= 0.0 {
      assert k * c <= k * 1.0;
    } else {
      assert (-k) * c <= (-k) * 1.0;
    }
  }

  /** A part of a positive whole divided by the whole lies in [0, 1]. */
  lemma FractionInUnit(a: real, b: real)
    requires b > 0.0 && 0.0 <= a <= b
    ensures 0.0 <= a / b <= 1.0
  {
    var q := a / b;
    assert q * b == a;
  }

  /** The offset of either end of [lo, lo + w], as a fraction of w. */
  lemma FractionAtEnds(v: real, lo: real, w: real)
    requires w != 0.0
    ensures v == lo ==> (v - lo) / w == 0.0
    ensures v == lo + w ==> (v - lo) / w == 1.0
  {
  }

  /** A bounds rectangle the transforms can divide by. */
  predicate NonDegenerate(r: Rect) { r.width != 0.0 && r.height != 0.0 }

  /**
   * Curve space to canvas space: the bounds rectangle is stretched onto the
   * curve area, with the y axis flipped (canvas y grows downwards).
   */
  function CurveToCanvas(bounds: Rect, area: Rect, p: Vec2): (r: Vec2)
    requires NonDegenerate(bounds)
    ensures p.x == bounds.XMin() ==> r.x == area.XMin()
    ensures p.x == bounds.XMax() ==> r.x == area.XMax()
    ensures p.y == bounds.YMax() ==> r.y == area.YMin()
    ensures p.y == bounds.YMin() ==> r.y == area.YMax()
  {
    // xMax - x is the width, yMax - y the height
    var ox := (p.x - bounds.x) / bounds.width;
    var oy := (p.y - bounds.y) / bounds.height;
    FractionAtEnds(p.x, bounds.x, bounds.width);
    FractionAtEnds(p.y, bounds.y, bounds.height);
    Vec2(ox * area.width + area.x, (1.0 - oy) * area.height + area.y)
  }

  /** The canvas position of a key. */
  function KeyToCanvas(bounds: Rect, area: Rect, k: Keyframe): (r: Vec2)
    requires NonDegenerate(bounds)
    ensures bounds.width > 0.0 && bounds.height > 0.0 && NonDegenerate(area) && bounds.Contains(Vec2(k.time, k.value))
            ==> CanvasToCurve(bounds, area, r) == Vec2(k.time, k.value)
  {
    var p := Vec2(k.time, k.value);
    var r := CurveToCanvas(bounds, area, p);
    if bounds.width > 0.0 && bounds.height > 0.0 && NonDegenerate(area) && bounds.Contains(p) then
      CurveCanvasRoundTrip(bounds, area, p); r
    else r
  }

  /** Canvas space to curve space; Mathf.Lerp's clamp keeps the result inside the bounds. */
  function CanvasToCurve(bounds: Rect, area: Rect, p: Vec2): (r: Vec2)
    requires NonDegenerate(area)
    ensures bounds.width >= 0.0 ==> bounds.XMin() <= r.x <= bounds.XMax()
    ensures bounds.height >= 0.0 ==> bounds.YMin() <= r.y <= bounds.YMax()
  {
    var ox := (p.x - area.x) / area.width;
    var oy := (p.y - area.y) / area.height;
    Vec2(Lerp(bounds.x, bounds.XMax(), ox), Lerp(bounds.YMax(), bounds.y, oy))
  }

  /** Undoing an affine stretch `o * w + m`. */
  lemma UnStretch(o: real, w: real, m: real)
    requires w != 0.0
    ensures ((o * w + m) - m) / w == o
  {
    assert (o * w + m) - m == o * w;
  }

  /** Undoing a division by a non-zero number. */
  lemma UnDivide(a: real, b: real)
    requires b != 0.0
    ensures (a / b) * b == a
  {
  }

  /** One axis of the x transform: stretch [lo, lo + w] onto [m, m + aw], then back with Lerp. */
  lemma AxisRoundTrip(lo: real, w: real, m: real, aw: real, v: real, c: real)
    requires w > 0.0 && aw != 0.0 && lo <= v <= lo + w
    requires c == (v - lo) / w * aw + m
    ensures Lerp(lo, lo + w, (c - m) / aw) == v
  {
    var o := (v - lo) / w;
    FractionInUnit(v - lo, w);
    UnStretch(o, aw, m);
    UnDivide(v - lo, w);
    assert Lerp(lo, lo + w, o) == lo + w * o;
  }

  /** The y transform flips: stretch [lo, lo + h] onto [m + ah, m], then back with Lerp from the top. */
  lemma FlippedAxisRoundTrip(lo: real, h: real, m: real, ah: real, v: real, c: real)
    requires h > 0.0 && ah != 0.0 && lo <= v <= lo + h
    requires c == (1.0 - (v - lo) / h) * ah + m
    ensures Lerp(lo + h, lo, (c - m) / ah) == v
  {
    var o := (v - lo) / h;
    FractionInUnit(v - lo, h);
    UnDivide(v - lo, h);
    var t := 1.0 - o;
    UnStretch(t, ah, m);
    assert (c - m) / ah == t;
    FlipBack(lo, h, o);
  }

  /** Lerp from the top end by 1 - o lands o * h above the bottom end. */
  lemma FlipBack(lo: real, h: real, o: real)
    ensures (lo + h) + (lo - (lo + h)) * (1.0 - o) == lo + o * h
  {
    assert (lo - (lo + h)) * (1.0 - o) == -h + o * h;
  }

  /** Every point of the bounds survives the trip to the canvas and back. */
  lemma CurveCanvasRoundTrip(bounds: Rect, area: Rect, p: Vec2)
    requires bounds.width > 0.0 && bounds.height > 0.0 && NonDegenerate(area)
    requires bounds.Contains(p)
    ensures CanvasToCurve(bounds, area, CurveToCanvas(bounds, area, p)) == p
  {
    var c := CurveToCanvas(bounds, area, p);
    AxisRoundTrip(bounds.x, bounds.width, area.x, area.width, p.x, c.x);
    FlippedAxisRoundTrip(bounds.y, bounds.height, area.y, area.height, p.y, c.y);
  }

  /** One axis of the inverse direction: Lerp onto [lo, lo + w], then the stretch back. */
  lemma AxisInverseRoundTrip(lo: real, w: real, m: real, aw: real, u: real, c: real)
    requires w != 0.0 && aw > 0.0 && m <= u <= m + aw
    requires c == Lerp(lo, lo + w, (u - m) / aw)
    ensures (c - lo) / w * aw + m == u
  {
    var t := (u - m) / aw;
    FractionInUnit(u - m, aw);
    UnStretch(t, w, lo);
    assert Lerp(lo, lo + w, t) - lo == t * w;
    UnDivide(u - m, aw);
  }

  /** The flipped axis of the inverse direction. */
  lemma FlippedAxisInverseRoundTrip(lo: real, h: real, m: real, ah: real, u: real, c: real)
    requires h != 0.0 && ah > 0.0 && m <= u <= m + ah
    requires c == Lerp(lo + h, lo, (u - m) / ah)
    ensures (1.0 - (c - lo) / h) * ah + m == u
  {
    var t := (u - m) / ah;
    FractionInUnit(u - m, ah);
    UnStretch(1.0 - t, h, lo);
    assert Lerp(lo + h, lo, t) - lo == (1.0 - t) * h;
    UnDivide(u - m, ah);
  }

  /** Every point of the curve area survives the trip to curve space and back. */
  lemma CanvasCurveRoundTrip(bounds: Rect, area: Rect, q: Vec2)
    requires NonDegenerate(bounds) && area.width > 0.0 && area.height > 0.0
    requires area.Contains(q)
    ensures CurveToCanvas(bounds, area, CanvasToCurve(bounds, area, q)) == q
  {
    var p := CanvasToCurve(bounds, area, q);
    AxisInverseRoundTrip(bounds.x, bounds.width, area.x, area.width, q.x, p.x);
    FlippedAxisInverseRoundTrip(bounds.y, bounds.height, area.y, area.height, q.y, p.y);
  }

  // ---------------------------------------------------------------------------
  // Segments

  function ProjectTangent(inPosition: real, inValue: real, inTangent: real, projPosition: real): (r: real)
    ensures projPosition == inPosition ==> r == inValue
  {
    inValue + (projPosition - inPosition) * inTangent
  }

  const OneThird: real := 0.333333
  const TwoThirds: real := 0.666666

  /** The four Bezier points of the segment between two keys, in curve space. */
  function BezierControls(start: Keyframe, end: Keyframe): (r: seq<Vec2>)
    requires start.outTangent.Finite? && end.inTangent.Finite?
    ensures |r| == 4
    ensures r[0] == Vec2(start.time, start.value) && r[3] == Vec2(end.time, end.value)
    ensures start.time <= end.time ==> start.time <= r[1].x <= r[2].x <= end.time
    ensures r[1].x == start.time + (end.time - start.time) * OneThird
    ensures r[2].x == start.time + (end.time - start.time) * TwoThirds
    ensures OnLine(start, start.outTangent.slope, r[1]) && OnLine(end, end.inTangent.slope, r[2])
  {
    var middle := start.time + (end.time - start.time) * OneThird;
    var middle2 := start.time + (end.time - start.time) * TwoThirds;
    [Vec2(start.time, start.value),
     Vec2(middle, ProjectTangent(start.time, start.value, start.outTangent.slope, middle)),
     Vec2(middle2, ProjectTangent(end.time, end.value, end.inTangent.slope, middle2)),
     Vec2(end.time, end.value)]
  }

  /**
   * The segment as drawn: the control points mapped to the canvas. The source
   * computes it for infinite tangents too, but draws a hard segment instead.
   */
  function BezierSegment(bounds: Rect, area: Rect, start: Keyframe, end: Keyframe): (r: seq<Vec2>)
    requires NonDegenerate(bounds)
    requires start.outTangent.Finite? && end.inTangent.Finite?
    ensures |r| == 4
    ensures r[0] == KeyToCanvas(bounds, area, start) && r[3] == KeyToCanvas(bounds, area, end)
    ensures forall i :: 0 <= i < 4 ==> r[i] == CurveToCanvas(bounds, area, BezierControls(start, end)[i])
  {
    var c := BezierControls(start, end);
    [CurveToCanvas(bounds, area, c[0]), CurveToCanvas(bounds, area, c[1]),
     CurveToCanvas(bounds, area, c[2]), CurveToCanvas(bounds, area, c[3])]
  }

  /** A point lies on the line of slope m through key k. */
  predicate OnLine(k: Keyframe, m: real, p: Vec2) { p.y - k.value == m * (p.x - k.time) }

  /**
   * When both handles of a segment have the slope of its chord, all four Bezier
   * points lie on the chord: the editor draws a straight line.
   */
  lemma ChordTangentsGiveStraightSegment(start: Keyframe, end: Keyframe, m: real)
    requires start.outTangent == Finite(m) && end.inTangent == Finite(m)
    requires end.value - start.value == m * (end.time - start.time)
    ensures forall i :: 0 <= i < 4 ==> OnLine(start, m, BezierControls(start, end)[i])
  {
    var c := BezierControls(start, end);
    var middle2 := start.time + (end.time - start.time) * TwoThirds;
    assert c[2].y == end.value + (middle2 - end.time) * m;
    assert (middle2 - end.time) * m == (middle2 - start.time) * m - (end.time - start.time) * m;
    assert OnLine(start, m, c[2]);
    assert OnLine(start, m, c[3]);
  }

  /** The step drawn next to an infinite tangent: a horizontal run, then a vertical one. */
  function HardSegment(bounds: Rect, area: Rect, start: Keyframe, end: Keyframe): (r: seq<Vec2>)
    requires NonDegenerate(bounds)
    ensures |r| == 3
    ensures r[0] == KeyToCanvas(bounds, area, start) && r[2] == KeyToCanvas(bounds, area, end)
    ensures r[1].y == r[0].y && r[1].x == r[2].x
  {
    [KeyToCanvas(bounds, area, start),
     CurveToCanvas(bounds, area, Vec2(end.time, start.value)),
     KeyToCanvas(bounds, area, end)]
  }

  // ---------------------------------------------------------------------------
  // Moving a key

  /** Key times strictly increase along the curve. */
  predicate StrictlyIncreasing(keys: Curve) {
    forall i, j :: 0 <= i < j < |keys| ==> keys[i].time < keys[j].time
  }

  /**
   * The time a moved key actually gets: at least `d` after its predecessor,
   * then at most `d` before its successor (the later clamp wins).
   */
  function ClampedTime(keys: Curve, index: int, t: real, d: real): (r: real)
    requires 0 <= index < |keys|
    ensures index < |keys| - 1 ==> r <= keys[index + 1].time - d
    ensures (index > 0 && (index == |keys| - 1 || keys[index + 1].time - keys[index - 1].time >= 2.0 * d))
              ==> r >= keys[index - 1].time + d
    ensures ((index == 0 || keys[index - 1].time + d <= t) && (index == |keys| - 1 || t <= keys[index + 1].time - d))
              ==> r == t
  {
    var afterPrev := if index > 0 then Max(keys[index - 1].time + d, t) else t;
    if index < |keys| - 1 then Min(keys[index + 1].time - d, afterPrev) else afterPrev
  }

  /** The key written back by SetKeyframe: only its time is clamped. */
  function ClampedKey(keys: Curve, index: int, k: Keyframe, d: real): (r: Keyframe)
    requires 0 <= index < |keys|
    ensures r.value == k.value && r.inTangent == k.inTangent && r.outTangent == k.outTangent
    ensures r.time == ClampedTime(keys, index, k.time, d)
  {
    k.(time := ClampedTime(keys, index, k.time, d))
  }

  /** The curve after AnimationCurve.MoveKey of a clamped key (replacement at the index). */
  function MovedCurve(keys: Curve, index: int, k: Keyframe, d: real): (r: Curve)
    requires 0 <= index < |keys|
    ensures |r| == |keys| && r[index] == ClampedKey(keys, index, k, d)
    ensures forall j :: 0 <= j < |keys| && j != index ==> r[j] == keys[j]
  {
    keys[index := ClampedKey(keys, index, k, d)]
  }

  /**
   * With a positive clamping distance and neighbours further than it apart, a
   * move never reorders the keys.
   */
  lemma MoveKeepsOrder(keys: Curve, index: int, k: Keyframe, d: real)
    requires 0 <= index < |keys| && d > 0.0
    requires StrictlyIncreasing(keys)
    requires 0 < index < |keys| - 1 ==> keys[index + 1].time - keys[index - 1].time > d
    ensures StrictlyIncreasing(MovedCurve(keys, index, k, d))
  {
    var r := MovedCurve(keys, index, k, d);
    var t := r[index].time;
    assert index > 0 ==> keys[index - 1].time < t by {
      if index > 0 && index < |keys| - 1 {
        assert keys[index + 1].time - d > keys[index - 1].time;
        assert Max(keys[index - 1].time + d, k.time) > keys[index - 1].time;
      }
    }
    assert index < |keys| - 1 ==> t < keys[index + 1].time;
    forall i, j | 0 <= i < j < |r| ensures r[i].time < r[j].time {
      if j == index {
        assert keys[i].time <= keys[index - 1].time;
      } else if i == index {
        assert keys[index + 1].time <= keys[j].time;
      }
    }
  }

  // ---------------------------------------------------------------------------
  // Tangent editing

  /** `Mathf.Approximately(x, 0)`; Unity's Approximately holds of equal arguments. */
  predicate ApproxZero(approx: Approx, x: real) { x == 0.0 || approx(x, 0.0) }

  /** The drag offset's x after the side restriction: never right of the key for In, never left for Out. */
  function SideX(side: TangentSide, dx: real): (r: real)
    ensures side == In ==> r <= 0.0 && (dx <= 0.0 ==> r == dx)
    ensures side == Out ==> r >= 0.0 && (dx >= 0.0 ==> r == dx)
  {
    if side == In && dx > 0.0 then 0.0
    else if side == Out && dx < 0.0 then 0.0
    else dx
  }

  /**
   * The tangent given by a drag offset (dx, dy) from the key: vertical when the
   * restricted x is (approximately) zero, dy / x otherwise. Note the sign test:
   * a downward offset (dy < 0) gives +infinity.
   */
  function TangentFromOffset(side: TangentSide, dx: real, dy: real, approx: Approx): (r: Tangent)
    ensures r.IsInfinity() <==> ApproxZero(approx, SideX(side, dx))
    ensures r.IsInfinity() ==> (r == PosInf <==> dy < 0.0)
    ensures r.Finite? ==> r.slope * SideX(side, dx) == dy
  {
    var x := SideX(side, dx);
    if ApproxZero(approx, x) then (if dy < 0.0 then PosInf else NegInf)
    else Finite(dy / x)
  }

  /**
   * The keyframe handed to SetKeyframe after a tangent drag: the key keeps its
   * time and value; the dragged tangent, and with linking the other one too,
   * takes the new slope.
   */
  function TangentEdited(key: Keyframe, side: TangentSide, link: bool, offset: Vec2, approx: Approx): (r: Keyframe)
    ensures r.time == key.time && r.value == key.value
    ensures r.inTangent == (if side == In || link then TangentFromOffset(side, offset.x, offset.y, approx) else key.inTangent)
    ensures r.outTangent == (if side == Out || link then TangentFromOffset(side, offset.x, offset.y, approx) else key.outTangent)
  {
    var tangent := TangentFromOffset(side, offset.x, offset.y, approx);
    var inTangent := if side == In || link then tangent else key.inTangent;
    var outTangent := if side == Out || link then tangent else key.outTangent;
    Keyframe(key.time, key.value, inTangent, outTangent)
  }

  /** Mathf.Approximately on two stored tangents: false when either is infinite. */
  predicate TangentsApprox(approx: Approx, a: Tangent, b: Tangent) {
    a.Finite? && b.Finite? && approx(a.slope, b.slope)
  }

  /** A key whose two tangents differ (two infinities of any sign count as equal). */
  predicate AlreadyBroken(approx: Approx, key: Keyframe) {
    !(TangentsApprox(approx, key.inTangent, key.outTangent) || (key.inTangent.IsInfinity() && key.outTangent.IsInfinity()))
  }

  /** Whether a tangent drag moves both tangents: shift forces it, control or a broken key prevent it. */
  function LinkTangents(approx: Approx, key: Keyframe, shift: bool, control: bool): (r: bool)
    ensures shift ==> r
    ensures !shift && AlreadyBroken(approx, key) ==> !r
    ensures !shift && control ==> !r
    ensures !shift && !control && !AlreadyBroken(approx, key) ==> r
  {
    shift || !(AlreadyBroken(approx, key) || control)
  }

  /** A linked drag leaves the key unbroken, whatever Approximately says of finite numbers. */
  lemma LinkedEditIsUnbroken(approx: Approx, key: Keyframe, side: TangentSide, offset: Vec2)
    requires forall a: real :: approx(a, a)
    ensures !AlreadyBroken(approx, TangentEdited(key, side, true, offset, approx))
  {
    var r := TangentEdited(key, side, true, offset, approx);
    assert r.inTangent == r.outTangent;
    if r.inTangent.Finite? {
      assert approx(r.inTangent.slope, r.outTangent.slope);
    }
  }

  // ---------------------------------------------------------------------------
  // The neighbour search of EvaluateTangent

  /**
   * The number of leading keys strictly before `time`; the search loop stops at
   * the first key that is not. `prev` is this minus one and `next` is this.
   */
  function LeadingBefore(keys: Curve, time: real): (n: nat)
    ensures n <= |keys|
    ensures forall j :: 0 <= j < n ==> keys[j].time < time
    ensures n < |keys| ==> time <= keys[n].time
    decreases |keys|
  {
    if keys == [] || !(time > keys[0].time) then 0 else 1 + LeadingBefore(keys[1..], time)
  }

  /** The two facts the loop establishes determine the count. */
  lemma {:induction false} LeadingBeforeUnique(keys: Curve, time: real, n: nat)
    requires n <= |keys|
    requires forall j :: 0 <= j < n ==> keys[j].time < time
    requires n < |keys| ==> time <= keys[n].time
    ensures LeadingBefore(keys, time) == n
    decreases n
  {
    if n > 0 {
      assert keys[0].time < time;
      forall j | 0 <= j < n - 1 ensures keys[1..][j].time < time {
        assert keys[1..][j] == keys[j + 1];
      }
      if n - 1 < |keys[1..]| {
        assert keys[1..][n - 1] == keys[n];
      }
      LeadingBeforeUnique(keys[1..], time, n - 1);
    }
  }

  /** On a time-ordered curve the search finds no predecessor exactly when time is at or before the first key. */
  lemma SortedLeadingBefore(keys: Curve, time: real)
    requires forall i, j :: 0 <= i < j < |keys| ==> keys[i].time <= keys[j].time
    requires |keys| > 0
    ensures LeadingBefore(keys, time) == 0 <==> time <= keys[0].time
    ensures LeadingBefore(keys, time) == |keys| <==> time > keys[|keys| - 1].time
  {
    var n := LeadingBefore(keys, time);
    if n < |keys| {
      assert keys[n].time <= keys[|keys| - 1].time;
    }
  }

  /** The half-width of the sampling window (kD). */
  const SampleDistance: real := 0.001

  datatype Window = Window(tp: real, tn: real)

  /** The two sample times, kD either side of `time` but never past the neighbouring keys. */
  function SampleWindow(prevTime: real, nextTime: real, time: real): (w: Window)
    requires prevTime < time <= nextTime
    ensures prevTime <= w.tp < time <= w.tn <= nextTime
    ensures w.tp < w.tn
  {
    Window(Max(time - SampleDistance, prevTime), Min(time + SampleDistance, nextTime))
  }

  /**
   * The slope EvaluateTangent estimates: zero outside the keyed range, otherwise
   * the difference quotient of the curve over the sample window (vertical when
   * the window is approximately empty).
   */
  function TangentAt(keys: Curve, time: real, evaluate: (Curve, real) -> real, approx: Approx): (r: Tangent)
    ensures var n := LeadingBefore(keys, time); n == 0 || n == |keys| ==> r == Finite(0.0)
    ensures var n := LeadingBefore(keys, time);
            0 < n < |keys| ==>
              var w := SampleWindow(keys[n - 1].time, keys[n].time, time);
              var rise := evaluate(keys, w.tn) - evaluate(keys, w.tp);
              (r.Finite? ==> r.slope * (w.tn - w.tp) == rise) &&
              (r == PosInf ==> rise > 0.0) && (r == NegInf ==> rise <= 0.0)
  {
    var n := LeadingBefore(keys, time);
    if n == 0 || n == |keys| then Finite(0.0)
    else
      var w := SampleWindow(keys[n - 1].time, keys[n].time, time);
      var vp := evaluate(keys, w.tp);
      var vn := evaluate(keys, w.tn);
      if approx(w.tn, w.tp) then (if vn - vp > 0.0 then PosInf else NegInf)
      else Finite((vn - vp) / (w.tn - w.tp))
  }

  /** EvaluateTangent gives zero for an empty curve and for times outside a time-ordered curve's keys. */
  lemma TangentOutsideKeysIsZero(keys: Curve, time: real, evaluate: (Curve, real) -> real, approx: Approx)
    requires forall i, j :: 0 <= i < j < |keys| ==> keys[i].time <= keys[j].time
    requires |keys| == 0 || time <= keys[0].time || time > keys[|keys| - 1].time
    ensures TangentAt(keys, time, evaluate, approx) == Finite(0.0)
  {
    if |keys| > 0 {
      SortedLeadingBefore(keys, time);
    }
  }
}
