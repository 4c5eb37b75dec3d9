/** Hit points of a destroyable object, kept in a C# int. */
module Destroying {

  /** C#'s 32-bit int. */
  newtype int32 = x: int | -0x8000_0000 <= x < 0x8000_0000

  /** Two's-complement wrap-around, as unchecked int arithmetic gives it. */
  function Wrap32(x: int): (r: int32)
    ensures -0x8000_0000 <= x < 0x8000_0000 ==> r as int == x
    ensures (r as int - x) % 0x1_0000_0000 == 0
  {
    ((x + 0x8000_0000) % 0x1_0000_0000 - 0x8000_0000) as int32
  }

  const DefaultLife: int32 := 100

  /** The life left after `n` hits of `dmg` each: always life - n * dmg up to a multiple of 2^32. */
  function LifeAfter(life: int32, dmg: int32, n: nat): (r: int32)
    ensures (r as int - (life as int - n * dmg as int)) % 0x1_0000_0000 == 0
  {
    if n == 0 then life
    else
      var before := LifeAfter(life, dmg, n - 1);
      var r := Wrap32(before as int - dmg as int);
      assert (n - 1) * dmg as int + dmg as int == n * dmg as int;
      SumOfMultiples(r as int - (before as int - dmg as int), before as int - (life as int - (n - 1) * dmg as int));
      r
  }

  lemma SumOfMultiples(x: int, y: int)
    requires x % 0x1_0000_0000 == 0 && y % 0x1_0000_0000 == 0
    ensures (x + y) % 0x1_0000_0000 == 0
  {
    assert x + y == (x / 0x1_0000_0000 + y / 0x1_0000_0000) * 0x1_0000_0000;
  }

  /** As long as nothing wraps, n hits take off exactly n * dmg. */
  lemma {:induction false} LifeAfterIsLinear(life: int32, dmg: int32, n: nat)
    requires dmg >= 0 && life as int - n * dmg as int >= -0x8000_0000
    ensures LifeAfter(life, dmg, n) as int == life as int - n * dmg as int
  {
    if n > 0 {
      assert life as int - (n - 1) * dmg as int >= life as int - n * dmg as int;
      LifeAfterIsLinear(life, dmg, n - 1);
    }
  }

  /** From the default 100 hit points, weapon hits of 10 leave the object alive for nine hits and kill it on the tenth. */
  lemma TenthHitDestroys(n: nat)
    requires 1 <= n <= 10
    ensures LifeAfter(DefaultLife, 10, n) <= 0 <==> n == 10
  {
    LifeAfterIsLinear(DefaultLife, 10, n);
  }

  /** Whether one of the first `n` hits leaves the object with no life, so that its destruction is requested. */
  function Dies(life: int32, dmg: int32, n: nat): bool
  {
    n > 0 && (Dies(life, dmg, n - 1) || LifeAfter(life, dmg, n) <= 0)
  }

  lemma {:induction false} DiesIff(life: int32, dmg: int32, n: nat)
    ensures Dies(life, dmg, n) <==> exists k :: 1 <= k <= n && LifeAfter(life, dmg, k) <= 0
  {
    if n > 0 {
      DiesIff(life, dmg, n - 1);
      if LifeAfter(life, dmg, n) <= 0 {
        assert 1 <= n <= n && LifeAfter(life, dmg, n) <= 0;
      }
    }
  }

  class Destroyable {
    var life: int32
    /** Destroy(gameObject) has been called on the object. */
    var destroyRequested: bool

    constructor ()
      ensures life == DefaultLife && !destroyRequested
    {
      life := DefaultLife;
      destroyRequested := false;
    }

    /** Takes `dmg` off the life, unclamped; reports and requests destruction once life is gone. */
    method GetDMG(dmg: int32) returns (destroyed: bool)
      modifies this
      ensures life == Wrap32(old(life) as int - dmg as int)
      ensures destroyed <==> life <= 0
      ensures destroyRequested == (old(destroyRequested) || destroyed)
    {
      life := Wrap32(life as int - dmg as int);
      if life <= 0 {
        destroyRequested := true;
        return true;
      }
      return false;
    }
  }
}
