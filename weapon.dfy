/** The hitscan weapon: its aim, its rate-of-fire gate and the damage a shot deals. */
module Weapon {
  import opened Common
  import opened Destroying

  /** When the next shot may come: after a time, or never (1 / 0 is +infinity for floats). */
  datatype Cooldown = Until(time: real) | Forever

  /** The gate of Update: the time must be strictly past the cooldown. */
  predicate Open(now: real, c: Cooldown) { c.Until? && now > c.time }

  /** The cooldown a shot at `now` leaves behind: now + 1 / bulletsPerSecond. */
  function NextCooldown(now: real, bulletsPerSecond: real): (c: Cooldown)
    ensures bulletsPerSecond == 0.0 <==> c == Forever
    ensures bulletsPerSecond > 0.0 ==> c.Until? && c.time > now
  {
    if bulletsPerSecond == 0.0 then Forever else Until(now + 1.0 / bulletsPerSecond)
  }

  /** What the raycast from the camera returned: nothing in range, or a collider that may be destroyable. */
  datatype Hit = Miss | HitObject(target: Option<Destroyable>)

  /** One frame as the gate sees it: the time and whether the fire button is held. */
  datatype Frame = Frame(time: real, held: bool)

  /** The times of the frames in which a shot is fired, starting from cooldown `c`: at most one per frame, none without the button. */
  function ShotTimes(c: Cooldown, frames: seq<Frame>, bulletsPerSecond: real): (r: seq<real>)
    ensures |r| <= |frames|
    ensures (forall j :: 0 <= j < |frames| ==> !frames[j].held) ==> r == []
    decreases |frames|
  {
    if frames == [] then []
    else if Open(frames[0].time, c) && frames[0].held then
      [frames[0].time] + ShotTimes(NextCooldown(frames[0].time, bulletsPerSecond), frames[1..], bulletsPerSecond)
    else ShotTimes(c, frames[1..], bulletsPerSecond)
  }

  /** Every shot comes after the cooldown in force, and none at all once it is Forever. */
  lemma {:induction false} ShotsAfterCooldown(c: Cooldown, frames: seq<Frame>, bulletsPerSecond: real)
    requires bulletsPerSecond >= 0.0
    ensures c == Forever ==> ShotTimes(c, frames, bulletsPerSecond) == []
    ensures c.Until? ==> forall i :: 0 <= i < |ShotTimes(c, frames, bulletsPerSecond)| ==> ShotTimes(c, frames, bulletsPerSecond)[i] > c.time
    decreases |frames|
  {
    if frames != [] {
      ShotsAfterCooldown(c, frames[1..], bulletsPerSecond);
      if Open(frames[0].time, c) && frames[0].held {
        var next := NextCooldown(frames[0].time, bulletsPerSecond);
        ShotsAfterCooldown(next, frames[1..], bulletsPerSecond);
      }
    }
  }

  /** Successive times are more than `gap` apart. */
  predicate Spaced(s: seq<real>, gap: real) {
    forall i :: 0 <= i < |s| - 1 ==> s[i + 1] - s[i] > gap
  }

  /** With a positive rate, successive shots are more than 1 / bulletsPerSecond apart. */
  lemma {:induction false} ShotsSpaced(c: Cooldown, frames: seq<Frame>, bulletsPerSecond: real)
    requires bulletsPerSecond > 0.0
    ensures Spaced(ShotTimes(c, frames, bulletsPerSecond), 1.0 / bulletsPerSecond)
    decreases |frames|
  {
    if frames != [] {
      if Open(frames[0].time, c) && frames[0].held {
        var next := NextCooldown(frames[0].time, bulletsPerSecond);
        assert next == Until(frames[0].time + 1.0 / bulletsPerSecond);
        ShotsSpaced(next, frames[1..], bulletsPerSecond);
        ShotsAfterCooldown(next, frames[1..], bulletsPerSecond);
        var rest := ShotTimes(next, frames[1..], bulletsPerSecond);
        var s := [frames[0].time] + rest;
        assert s == ShotTimes(c, frames, bulletsPerSecond);
        forall i | 0 <= i < |s| - 1 ensures s[i + 1] - s[i] > 1.0 / bulletsPerSecond {
          if i > 0 {
            var j := i - 1;
            assert rest[j + 1] - rest[j] > 1.0 / bulletsPerSecond;
            assert s[i] == rest[j] && s[i + 1] == rest[j + 1];
          } else {
            assert s[0] == frames[0].time && s[1] == rest[0] && rest[0] > next.time;
          }
        }
      } else {
        ShotsSpaced(c, frames[1..], bulletsPerSecond);
        assert ShotTimes(c, frames, bulletsPerSecond) == ShotTimes(c, frames[1..], bulletsPerSecond);
      }
    }
  }

  class WeaponController {
    const bulletsPerSecond: real
    const weaponDMG: int32
    var cooldown: Cooldown
    var isOnFire: bool
    /** The x Euler angle of the weapon. */
    var xRotation: real

    constructor (bulletsPerSecond: real)
      ensures this.bulletsPerSecond == bulletsPerSecond && weaponDMG == 10
      ensures cooldown == Until(0.0) && !isOnFire && xRotation == 0.0
    {
      this.bulletsPerSecond := bulletsPerSecond;
      weaponDMG := 10;
      cooldown := Until(0.0);
      isOnFire := false;
      xRotation := 0.0;
    }

    /**
     * One frame at time `now`. The weapon follows the camera's pitch while
     * zooming; once the cooldown has passed, holding the button fires one shot,
     * which damages what the ray hit if that is destroyable.
     */
    method Update(now: real, zooming: bool, cameraX: real, held: bool, hit: Hit)
      modifies this, if hit.HitObject? && hit.target.Some? then {hit.target.value} else {}
      ensures xRotation == if zooming then cameraX else 0.0
      ensures !Open(now, old(cooldown)) ==> cooldown == old(cooldown) && isOnFire == old(isOnFire)
      ensures Open(now, old(cooldown)) && !held ==> cooldown == old(cooldown) && !isOnFire
      ensures Open(now, old(cooldown)) && held ==> cooldown == NextCooldown(now, bulletsPerSecond) && isOnFire
      ensures hit.HitObject? && hit.target.Some? ==>
                var d := hit.target.value;
                if Open(now, old(cooldown)) && held
                then d.life == Wrap32(old(d.life) as int - weaponDMG as int) && d.destroyRequested == (old(d.destroyRequested) || d.life <= 0)
                else d.life == old(d.life) && d.destroyRequested == old(d.destroyRequested)
    {
      xRotation := if zooming then cameraX else 0.0;
      if Open(now, cooldown) {
        isOnFire := false;
        if held {
          isOnFire := true;
          if hit.HitObject? && hit.target.Some? {
            var _ := hit.target.value.GetDMG(weaponDMG);
          }
          cooldown := NextCooldown(now, bulletsPerSecond);
        }
      }
    }
  }
}
