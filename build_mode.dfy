/**
 * The build tool: snapping a point in front of the camera to the building grid,
 * toggling the preview piece, deciding whether the spot is free, and placing
 * the solid piece on a mouse release.
 */
module Building {
  import opened Common

  // ---------------------------------------------------------------------------
  // C#'s float remainder truncates toward zero, unlike Dafny's Euclidean one

  /** The quotient a / b truncated toward zero. */
  function TruncQuot(a: real, b: real): (q: int)
    requires b != 0.0
    ensures a / b >= 0.0 ==> q as real <= a / b < q as real + 1.0
    ensures a / b < 0.0 ==> q as real - 1.0 < a / b <= q as real
  {
    var f := a / b;
    if f >= 0.0 then f.Floor else -((-f).Floor)
  }

  /**
   * a % b as C# computes it for floats: a - b * trunc(a / b). For a positive
   * divisor it is smaller than the divisor and has the sign of the dividend.
   */
  function TruncRem(a: real, b: real): (r: real)
    requires b != 0.0
    ensures b > 0.0 && a >= 0.0 ==> 0.0 <= r < b
    ensures b > 0.0 && a < 0.0 ==> -b < r <= 0.0
  {
    var f := a / b;
    var q := TruncQuot(a, b) as real;
    var r := a - b * q;
    RemainderOfFraction(a, b, f, q, r);
    if b > 0.0 then
      PositiveQuotient(a, b);
      if a >= 0.0 then UnitMultiple(f - q, b, r); r
      else UnitMultiple(q - f, b, -r); r
    else r
  }

  lemma RemainderOfFraction(a: real, b: real, f: real, q: real, r: real)
    requires b != 0.0 && f == a / b && r == a - b * q
    ensures r == (f - q) * b && -r == (q - f) * b
  {
    assert a == f * b;
  }

  lemma PositiveQuotient(a: real, b: real)
    requires b > 0.0
    ensures a >= 0.0 ==> a / b >= 0.0
    ensures a < 0.0 ==> a / b < 0.0
  {
  }

  lemma UnitMultiple(c: real, b: real, r: real)
    requires b > 0.0 && 0.0 <= c < 1.0 && r == c * b
    ensures 0.0 <= r < b
  {
  }

  // ---------------------------------------------------------------------------
  // Snapping one coordinate

  /** A grid line within half a cell of `h`: an integer multiple of g no further than g / 2 from h. */
  predicate NearGridLine(s: real, h: real, g: real)
    requires g != 0.0
  {
    s == (s / g).Floor as real * g && Abs(s - h) <= g / 2.0
  }

  /**
   * One axis of SnapToNearestGridcell before the per-mode offsets. For a
   * positive cell size, trunc-remainder snapping lands on the grid line
   * g - g * trunc((g - h) / g), moved by at most one cell, and ends within
   * half a cell of the input.
   */
  function SnapAxis(h: real, g: real): (r: real)
    requires g != 0.0
    ensures g > 0.0 ==> NearGridLine(r, h, g)
  {
    var s := h + TruncRem(g - h, g);
    var half := g / 2.0;
    var r := if !(s + half >= h) then s + g
             else if !(s - half <= h) then s - g
             else s;
    if g > 0.0 then
      var q := TruncQuot(g - h, g);
      assert s == (1 - q) as real * g;
      var m := if !(s + half >= h) then 2 - q else if !(s - half <= h) then -q else 1 - q;
      assert r == m as real * g;
      CellOfMultiple(m, g);
      r
    else r
  }

  lemma CellOfMultiple(m: int, g: real)
    requires g != 0.0
    ensures (m as real * g / g).Floor == m
  {
    assert m as real * g / g == m as real;
  }

  /** So it is the nearest grid line: no multiple of the cell size is closer. */
  lemma SnapIsNearest(h: real, g: real, k: int)
    requires g > 0.0
    ensures Abs(SnapAxis(h, g) - h) <= Abs(k as real * g - h)
  {
    NearestLine(SnapAxis(h, g), h, g, k);
  }

  /** A grid line within half a cell of a point is at least as close to it as any other grid line. */
  lemma NearestLine(s: real, h: real, g: real, k: int)
    requires g > 0.0 && s == (s / g).Floor as real * g && Abs(s - h) <= g / 2.0
    ensures Abs(s - h) <= Abs(k as real * g - h)
  {
    var m := (s / g).Floor;
    if k != m {
      CellsApart(k, m, g, k as real * g, s);
      FartherThanHalf(s, h, k as real * g, g);
    }
  }

  lemma FartherThanHalf(s: real, h: real, x: real, g: real)
    requires Abs(s - h) <= g / 2.0 && Abs(x - s) >= g
    ensures Abs(s - h) <= Abs(x - h)
  {
  }

  lemma CellsApart(k: int, m: int, g: real, x: real, y: real)
    requires g > 0.0 && k != m && x == k as real * g && y == m as real * g
    ensures Abs(x - y) >= g
  {
    var d := k - m;
    assert x - y == d as real * g;
    if d > 0 {
      assert (d - 1) as real * g >= 0.0;
      assert d as real * g == (d - 1) as real * g + g;
    } else {
      assert (-d - 1) as real * g >= 0.0;
      assert d as real * g == -((-d - 1) as real * g + g);
    }
  }

  // ---------------------------------------------------------------------------
  // Pieces and the grid cell of a piece

  datatype BuildType = Off | Ground | Wall | Ramp

  /** A prefab: the solid or the transparent (preview) variant of a building piece. */
  datatype Prefab = Prefab(kind: BuildType, transparent: bool)

  /** An instantiated piece: a prefab at a position with Euler angles. */
  datatype Piece = Piece(prefab: Prefab, position: Vec3, rotation: Vec3)

  /** Where a piece goes, and how it is turned. */
  datatype Placement = Placement(position: Vec3, rotation: Vec3)

  /** Every coordinate of the snapped point is on the grid line nearest to that coordinate. */
  function SnapPoint(p: Vec3, g: real): (r: Vec3)
    requires g != 0.0
    ensures g > 0.0 ==> NearGridLine(r.x, p.x, g) && NearGridLine(r.y, p.y, g) && NearGridLine(r.z, p.z, g)
  {
    Vec3(SnapAxis(p.x, g), SnapAxis(p.y, g), SnapAxis(p.z, g))
  }

  predicate Sideways(rotationY: real) { Abs(rotationY) == 90.0 || Abs(rotationY) == 270.0 }

  /**
   * SnapToNearestGridcell for a piece of type `mode`. `rotationY` is the
   * camera yaw already rounded to a multiple of 90 degrees and shifted by -90.
   */
  function SnapToNearestGridcell(p: Vec3, g: real, mode: BuildType, rotationY: real): (r: Placement)
    requires g != 0.0
    ensures r.rotation.x == 0.0 && r.rotation.y == rotationY
    ensures r.rotation.z == if mode == Ramp then -45.0 else 0.0
    ensures mode == Wall && Sideways(rotationY) ==>
              r.position == SnapPoint(p, g).Plus(Vec3(0.0, g / 2.0, g / 2.0))
    ensures mode == Wall && !Sideways(rotationY) ==>
              r.position == SnapPoint(p, g).Plus(Vec3(g / 2.0, g / 2.0, 0.0))
    ensures mode == Ramp ==> r.position == SnapPoint(p, g).Plus(Vec3(0.0, g / 2.0, 0.0))
    ensures mode == Ground || mode == Off ==> r.position == SnapPoint(p, g)
  {
    var s := SnapPoint(p, g);
    var half := g / 2.0;
    var x, y, z := s.x, s.y, s.z;
    var x', z' := if mode == Wall && !Sideways(rotationY) then x + half else x,
                  if mode == Wall && Sideways(rotationY) then z + half else z;
    var y' := if mode == Wall || mode == Ramp then y + half else y;
    Placement(Vec3(x', y', z'), Vec3(0.0, rotationY, if mode == Ramp then -45.0 else 0.0))
  }

  // ---------------------------------------------------------------------------
  // The preview toggle

  /** The tool's mode and its live preview piece, if any. */
  datatype BuildState = BuildState(mode: BuildType, preview: Option<Piece>)

  /** A preview exists exactly when building is on, and it is the transparent prefab of the mode. */
  predicate Consistent(s: BuildState) {
    && (s.mode == Off <==> s.preview.None?)
    && (s.preview.Some? ==> s.preview.value.prefab == Prefab(s.mode, true))
  }

  /**
   * InitBuilding: an unknown mode (Off) resets the mode first; the old preview
   * is destroyed; choosing the present mode again switches building off;
   * otherwise a preview of the new type appears at the last snapped position.
   */
  function Toggle(s: BuildState, m: BuildType, position: Vec3): (r: BuildState)
    ensures (m == Off || m == s.mode) ==> r == BuildState(Off, None)
    ensures m != Off && m != s.mode ==> r == BuildState(m, Some(Piece(Prefab(m, true), position, Zero3)))
    ensures Consistent(r)
  {
    var present := if m == Off then Off else s.mode;
    if present == m then BuildState(Off, None)
    else BuildState(m, Some(Piece(Prefab(m, true), position, Zero3)))
  }

  /** Pressing the same build key twice turns a preview on and off again, whatever came before. */
  lemma ToggleTwice(s: BuildState, m: BuildType, p: Vec3)
    requires m != Off
    ensures Toggle(Toggle(s, m, p), m, p).mode == (if s.mode == m then m else Off)
    ensures Toggle(Toggle(Toggle(s, m, p), m, p), m, p) == Toggle(s, m, p)
  {
  }

  /** Whether the preview spot is free: some build collider is near and none sits at the spot itself. */
  predicate Buildable(colliders: seq<Vec3>, target: Vec3) {
    |colliders| > 0 && forall i :: 0 <= i < |colliders| ==> colliders[i] != target
  }

  /** What BuildComponent instantiates: one solid piece of the present type, or nothing. */
  function Placed(canBuild: bool, mode: BuildType, position: Vec3, rotation: Vec3): (r: seq<Piece>)
    ensures |r| <= 1
    ensures |r| == 1 <==> canBuild && mode != Off
    ensures |r| == 1 ==> r[0] == Piece(Prefab(mode, false), position, rotation)
  {
    if canBuild then
      match mode
      case Ground => [Piece(Prefab(Ground, false), position, rotation)]
      case Wall => [Piece(Prefab(Wall, false), position, rotation)]
      case Ramp => [Piece(Prefab(Ramp, false), position, rotation)]
      case Off => []
    else []
  }

  /** The build tool, with the pieces it has instantiated so far. */
  class BuildMode {
    const gridSize: real
    var presentBuildMode: BuildType
    var square: Option<Piece>
    var position: Vec3
    var canBuild: bool
    /** The solid pieces placed, oldest first. */
    var built: seq<Piece>

    ghost predicate Valid()
      reads this
    {
      gridSize != 0.0 && Consistent(BuildState(presentBuildMode, square))
    }

    function State(): BuildState
      reads this
    {
      BuildState(presentBuildMode, square)
    }

    constructor (gridSize: real)
      requires gridSize != 0.0
      ensures Valid() && this.gridSize == gridSize
      ensures presentBuildMode == Off && square == None && position == Zero3 && !canBuild && built == []
    {
      this.gridSize := gridSize;
      presentBuildMode := Off;
      square := None;
      position := Zero3;
      canBuild := false;
      built := [];
    }

    method InitBuilding(mode: BuildType)
      requires Valid()
      modifies this`presentBuildMode, this`square
      ensures Valid()
      ensures State() == Toggle(old(State()), mode, position)
    {
      var component: Option<Prefab>;
      match mode {
        case Ground => component := Some(Prefab(Ground, true));
        case Ramp => component := Some(Prefab(Ramp, true));
        case Wall => component := Some(Prefab(Wall, true));
        case Off =>
          presentBuildMode := Off;
          component := None;
      }
      square := None;
      if presentBuildMode == mode {
        presentBuildMode := Off;
        return;
      }
      presentBuildMode := mode;
      square := Some(Piece(component.value, position, Zero3));
    }

    /** The overlap test of Update over the colliders the box query returned. */
    method ComputeCanBuild(colliders: seq<Vec3>, target: Vec3) returns (ok: bool)
      ensures ok <==> Buildable(colliders, target)
    {
      ok := true;
      if |colliders| == 0 {
        return false;
      }
      var i := 0;
      while i < |colliders|
        invariant 0 <= i <= |colliders|
        invariant ok <==> forall j :: 0 <= j < i ==> colliders[j] != target
      {
        if colliders[i] == target {
          ok := false;
        }
        i := i + 1;
      }
    }

    method BuildComponent()
      requires Valid()
      modifies this`built
      ensures built == old(built) + Placed(canBuild, presentBuildMode, position, if square.Some? then square.value.rotation else Zero3)
    {
      if canBuild {
        match presentBuildMode {
          case Ground => built := built + [Piece(Prefab(Ground, false), position, square.value.rotation)];
          case Wall => built := built + [Piece(Prefab(Wall, false), position, square.value.rotation)];
          case Ramp => built := built + [Piece(Prefab(Ramp, false), position, square.value.rotation)];
          case Off =>
        }
      }
    }

    /**
     * One frame. While building, the preview follows the grid cell gridSize + 2
     * ahead of the camera and `colliders` (the box query at that cell) decides
     * whether the spot is free; a mouse release then places a piece.
     */
    method Update(cameraPosition: Vec3, cameraForward: Vec3, rotationY: real, colliders: seq<Vec3>, mouseUp: bool)
      requires Valid()
      modifies this`position, this`square, this`canBuild, this`built
      ensures Valid() && presentBuildMode == old(presentBuildMode)
      ensures old(presentBuildMode) == Off ==>
                position == old(position) && square == old(square) && canBuild == old(canBuild)
      ensures old(presentBuildMode) != Off ==>
                var target := SnapToNearestGridcell(cameraPosition.Plus(cameraForward.Scale(gridSize + 2.0)), gridSize, presentBuildMode, rotationY);
                && position == target.position
                && square == Some(Piece(Prefab(presentBuildMode, true), target.position, target.rotation))
                && (canBuild <==> Buildable(colliders, position))
      ensures built == old(built) + (if mouseUp then Placed(canBuild, presentBuildMode, position, if square.Some? then square.value.rotation else Zero3) else [])
    {
      if presentBuildMode != Off {
        var pos := cameraPosition.Plus(cameraForward.Scale(gridSize + 2.0));
        var target := SnapToNearestGridcell(pos, gridSize, presentBuildMode, rotationY);
        square := Some(square.value.(rotation := target.rotation));
        position := target.position;
        square := Some(square.value.(position := position));
        canBuild := ComputeCanBuild(colliders, position);
      }
      if mouseUp {
        BuildComponent();
      }
    }
  }
}
