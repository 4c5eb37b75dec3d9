/** Switching between the bomb, weapon and build tools from the keyboard. */
module Modes {
  import opened Common
  import opened Building

  datatype InteractionMode = Bomb | Weapon | Build

  /** Which tool objects are active, and the mode text shown on screen. */
  datatype Tools = Tools(buildActive: bool, weaponActive: bool, bombActive: bool, display: string)

  function Count(b: bool): nat { if b then 1 else 0 }

  predicate ExactlyOne(t: Tools) {
    Count(t.buildActive) + Count(t.weaponActive) + Count(t.bombActive) == 1
  }

  /** switchMode: the one tool of the mode is active, and the display names the mode. */
  function ToolsFor(mode: InteractionMode): (t: Tools)
    ensures ExactlyOne(t)
    ensures t.bombActive <==> mode == Bomb
    ensures t.weaponActive <==> mode == Weapon
    ensures t.buildActive <==> mode == Build
    ensures t.display == match mode case Bomb => "Bomb Mode" case Weapon => "Weapon Mode" case Build => "Build Mode"
  {
    match mode
    case Bomb => Tools(false, false, true, "Bomb Mode")
    case Weapon => Tools(false, true, false, "Weapon Mode")
    case Build => Tools(true, false, false, "Build Mode")
  }

  /** The keys Update looks at: releases of 1, 2 and 3, presses of E and G. */
  datatype Keys = Keys(alpha1Up: bool, alpha2Up: bool, alpha3Up: bool, eDown: bool, gDown: bool)

  /** One guarded block of Update: a tool to switch to and a build type to initialise. */
  datatype Step = Step(mode: InteractionMode, build: BuildType)

  /** The tools and the build tool's state together. */
  datatype Frame = Frame(tools: Tools, build: BuildState)

  /** A block runs when its key fired: switchMode and InitBuilding touch disjoint state, so their order within it does not matter. */
  function Guarded(f: Frame, fired: bool, s: Step, position: Vec3): Frame
  {
    if fired then Frame(ToolsFor(s.mode), Toggle(f.build, s.build, position)) else f
  }

  /**
   * Update's five blocks, in the order the source tests them: 1, 2, 3, E, G.
   * Once any key fires, exactly one tool is active and the build state is
   * consistent; both are kept when no key fires.
   */
  function FrameAfter(f: Frame, k: Keys, position: Vec3): (r: Frame)
    ensures k.alpha1Up || k.alpha2Up || k.alpha3Up || k.eDown || k.gDown ==> ExactlyOne(r.tools) && Consistent(r.build)
    ensures ExactlyOne(f.tools) ==> ExactlyOne(r.tools)
    ensures Consistent(f.build) ==> Consistent(r.build)
  {
    var f1 := Guarded(f, k.alpha1Up, Step(Build, Ground), position);
    var f2 := Guarded(f1, k.alpha2Up, Step(Build, Wall), position);
    var f3 := Guarded(f2, k.alpha3Up, Step(Build, Ramp), position);
    var f4 := Guarded(f3, k.eDown, Step(Weapon, Off), position);
    Guarded(f4, k.gDown, Step(Bomb, Off), position)
  }

  /** The key whose block runs last in a frame, if any. */
  function LastMode(k: Keys): Option<InteractionMode>
  {
    if k.gDown then Some(Bomb)
    else if k.eDown then Some(Weapon)
    else if k.alpha1Up || k.alpha2Up || k.alpha3Up then Some(Build)
    else None
  }

  /**
   * Keys pressed in the same frame take effect in the order 1, 2, 3, E, G, so the
   * last one decides the tool; E or G always leaves building off, and a frame
   * with no key changes nothing.
   */
  lemma LastKeyWins(f: Frame, k: Keys, position: Vec3)
    ensures LastMode(k) == None ==> FrameAfter(f, k, position) == f
    ensures LastMode(k).Some? ==> FrameAfter(f, k, position).tools == ToolsFor(LastMode(k).value)
    ensures k.eDown || k.gDown ==> FrameAfter(f, k, position).build == BuildState(Off, None)
  {
  }

  /** Pressing just one of 1, 2, 3 toggles that building type. */
  lemma SingleBuildKey(f: Frame, position: Vec3, t: BuildType)
    requires t != Off
    ensures FrameAfter(f, Keys(t == Ground, t == Wall, t == Ramp, false, false), position)
            == Frame(ToolsFor(Build), Toggle(f.build, t, position))
  {
  }

  /** Pressing the same building key in two frames toggles back to no building, unless that type was already on. */
  lemma SameBuildKeyTwice(f: Frame, position: Vec3, t: BuildType)
    requires t != Off
    ensures var k := Keys(t == Ground, t == Wall, t == Ramp, false, false);
            FrameAfter(FrameAfter(f, k, position), k, position).build.mode == (if f.build.mode == t then t else Off)
  {
    SingleBuildKey(f, position, t);
    SingleBuildKey(FrameAfter(f, Keys(t == Ground, t == Wall, t == Ramp, false, false), position), position, t);
    ToggleTwice(f.build, t, position);
  }

  class ModeChange {
    const bm: BuildMode
    var buildActive: bool
    var weaponActive: bool
    var bombActive: bool
    var display: string

    ghost predicate Valid()
      reads this, bm
    {
      bm.Valid()
    }

    function Current(): Frame
      reads this, bm
    {
      Frame(Tools(buildActive, weaponActive, bombActive, display), bm.State())
    }

    /** The tool objects start as the scene left them. */
    constructor (bm: BuildMode, buildActive: bool, weaponActive: bool, bombActive: bool, display: string)
      requires bm.Valid()
      ensures Valid() && this.bm == bm
      ensures Current().tools == Tools(buildActive, weaponActive, bombActive, display)
    {
      this.bm := bm;
      this.buildActive := buildActive;
      this.weaponActive := weaponActive;
      this.bombActive := bombActive;
      this.display := display;
    }

    method SwitchMode(mode: InteractionMode)
      modifies this
      ensures Current().tools == ToolsFor(mode)
    {
      match mode {
        case Bomb =>
          buildActive, weaponActive, bombActive := false, false, true;
          display := "Bomb Mode";
        case Weapon =>
          buildActive, weaponActive, bombActive := false, true, false;
          display := "Weapon Mode";
        case Build =>
          buildActive, weaponActive, bombActive := true, false, false;
          display := "Build Mode";
      }
    }

    method Start()
      modifies this
      ensures Current().tools == ToolsFor(Weapon) && ExactlyOne(Current().tools)
    {
      SwitchMode(Weapon);
    }

    /** A block for key 1, 2 or 3: the build tool, then a preview of type `t`. */
    method BuildBlock(t: BuildType)
      requires Valid()
      modifies this, bm`presentBuildMode, bm`square
      ensures Valid()
      ensures Current() == Guarded(old(Current()), true, Step(Build, t), bm.position)
    {
      SwitchMode(Build);
      bm.InitBuilding(t);
    }

    /** A block for E or G: building off, then the tool of `mode`. */
    method LeaveBlock(mode: InteractionMode)
      requires Valid()
      modifies this, bm`presentBuildMode, bm`square
      ensures Valid()
      ensures Current() == Guarded(old(Current()), true, Step(mode, Off), bm.position)
    {
      bm.InitBuilding(Off);
      SwitchMode(mode);
    }

    /** One frame of key handling; the build tool keeps its last snapped position. */
    method Update(k: Keys)
      requires Valid()
      modifies this, bm`presentBuildMode, bm`square
      ensures Valid()
      ensures Current() == FrameAfter(old(Current()), k, bm.position)
      ensures old(ExactlyOne(Current().tools)) ==> ExactlyOne(Current().tools)
    {
      ghost var f0 := Current();
      if k.alpha1Up {
        BuildBlock(Ground);
      }
      ghost var f1 := Current();
      assert f1 == Guarded(f0, k.alpha1Up, Step(Build, Ground), bm.position);
      if k.alpha2Up {
        BuildBlock(Wall);
      }
      ghost var f2 := Current();
      assert f2 == Guarded(f1, k.alpha2Up, Step(Build, Wall), bm.position);
      if k.alpha3Up {
        BuildBlock(Ramp);
      }
      ghost var f3 := Current();
      assert f3 == Guarded(f2, k.alpha3Up, Step(Build, Ramp), bm.position);
      if k.eDown {
        LeaveBlock(Weapon);
      }
      ghost var f4 := Current();
      assert f4 == Guarded(f3, k.eDown, Step(Weapon, Off), bm.position);
      if k.gDown {
        LeaveBlock(Bomb);
      }
      LastKeyWins(f0, k, bm.position);
    }
  }
}
