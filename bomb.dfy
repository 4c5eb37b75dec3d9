/** The bomb's explosion: every collider in its radius is pushed, damaged or left alone by layer. */
module Exploding {
  import opened Common
  import opened Destroying

  /** Unity's 32 layers. */
  type Layer = l: nat | l < 32

  predicate InMask(layer: Layer, mask: bv32) {
    ((1 as bv32) << layer) & mask != 0
  }

  /** A collider the sphere query returned, with the components the bomb looks for. */
  datatype BombCollider = BombCollider(layer: Layer, hasRigidbody: bool, destroyable: Option<Destroyable>)

  datatype Effect = Pushed | Damaged | Untouched

  /** What explode does to one collider: the gravity mask is tested first and wins. */
  function Dispatch(c: BombCollider, gravityMask: bv32, buildMask: bv32): (e: Effect)
    ensures e == Pushed <==> InMask(c.layer, gravityMask) && c.hasRigidbody
    ensures e == Damaged <==> !InMask(c.layer, gravityMask) && InMask(c.layer, buildMask) && c.destroyable.Some?
    ensures !InMask(c.layer, gravityMask) && !InMask(c.layer, buildMask) ==> e == Untouched
  {
    if InMask(c.layer, gravityMask) then
      (if c.hasRigidbody then Pushed else Untouched)
    else if InMask(c.layer, buildMask) then
      (if c.destroyable.Some? then Damaged else Untouched)
    else Untouched
  }

  /** The indices of the colliders that receive the explosion force, in order. */
  function PushedIndices(cs: seq<BombCollider>, gravityMask: bv32, buildMask: bv32): (r: seq<nat>)
    ensures |r| <= |cs|
    ensures forall k :: 0 <= k < |r| ==> r[k] < |cs|
  {
    if cs == [] then []
    else
      PushedIndices(cs[..|cs| - 1], gravityMask, buildMask)
      + (if Dispatch(cs[|cs| - 1], gravityMask, buildMask) == Pushed then [|cs| - 1] else [])
  }

  /** The pushed indices are increasing, so each collider is pushed at most once, and exactly when its dispatch says so. */
  lemma {:induction false} PushedIndicesExact(cs: seq<BombCollider>, gravityMask: bv32, buildMask: bv32)
    ensures var p := PushedIndices(cs, gravityMask, buildMask);
            && (forall k, l :: 0 <= k < l < |p| ==> p[k] < p[l])
            && (forall i :: 0 <= i < |cs| ==> (i in p <==> Dispatch(cs[i], gravityMask, buildMask) == Pushed))
  {
    if cs != [] {
      var front := cs[..|cs| - 1];
      PushedIndicesExact(front, gravityMask, buildMask);
      forall i | 0 <= i < |front| ensures front[i] == cs[i] { }
    }
  }

  /** How many of the colliders in `cs` damage `d`: at most one hit per collider. */
  function DamageCount(cs: seq<BombCollider>, d: Destroyable, gravityMask: bv32, buildMask: bv32): (r: nat)
    ensures r <= |cs|
  {
    if cs == [] then 0
    else
      DamageCount(cs[..|cs| - 1], d, gravityMask, buildMask)
      + (if Dispatch(cs[|cs| - 1], gravityMask, buildMask) == Damaged && cs[|cs| - 1].destroyable == Some(d) then 1 else 0)
  }

  /** A destroyable none of whose colliders is damaged by the bomb keeps its life. */
  lemma {:induction false} DamageCountZero(cs: seq<BombCollider>, d: Destroyable, gravityMask: bv32, buildMask: bv32)
    requires forall i :: 0 <= i < |cs| && cs[i].destroyable == Some(d) ==> Dispatch(cs[i], gravityMask, buildMask) != Damaged
    ensures DamageCount(cs, d, gravityMask, buildMask) == 0
  {
    if cs != [] {
      var front := cs[..|cs| - 1];
      forall i | 0 <= i < |front| && front[i].destroyable == Some(d) ensures Dispatch(front[i], gravityMask, buildMask) != Damaged {
        assert front[i] == cs[i];
      }
      DamageCountZero(front, d, gravityMask, buildMask);
    }
  }

  /** A destroyable behind exactly one collider takes one hit of the bomb's damage if that collider is damaged, else none. */
  lemma {:induction false} DamageCountSingle(cs: seq<BombCollider>, d: Destroyable, gravityMask: bv32, buildMask: bv32, i: nat)
    requires i < |cs| && cs[i].destroyable == Some(d)
    requires forall j :: 0 <= j < |cs| && j != i ==> cs[j].destroyable != Some(d)
    ensures DamageCount(cs, d, gravityMask, buildMask) == if Dispatch(cs[i], gravityMask, buildMask) == Damaged then 1 else 0
  {
    var front := cs[..|cs| - 1];
    if i == |cs| - 1 {
      forall j | 0 <= j < |front| ensures front[j].destroyable != Some(d) {
        assert front[j] == cs[j];
      }
      DamageCountZero(front, d, gravityMask, buildMask);
    } else {
      forall j | 0 <= j < |front| && j != i ensures front[j].destroyable != Some(d) {
        assert front[j] == cs[j];
      }
      assert front[i] == cs[i];
      DamageCountSingle(front, d, gravityMask, buildMask, i);
    }
  }

  lemma PushedStep(cs: seq<BombCollider>, i: nat, gravityMask: bv32, buildMask: bv32)
    requires i < |cs|
    ensures PushedIndices(cs[..i + 1], gravityMask, buildMask)
            == PushedIndices(cs[..i], gravityMask, buildMask) + (if Dispatch(cs[i], gravityMask, buildMask) == Pushed then [i] else [])
  {
    assert cs[..i + 1][..i] == cs[..i];
  }

  lemma DamageStep(cs: seq<BombCollider>, i: nat, d: Destroyable, gravityMask: bv32, buildMask: bv32)
    requires i < |cs|
    ensures DamageCount(cs[..i + 1], d, gravityMask, buildMask)
            == DamageCount(cs[..i], d, gravityMask, buildMask)
               + (if Dispatch(cs[i], gravityMask, buildMask) == Damaged && cs[i].destroyable == Some(d) then 1 else 0)
  {
    assert cs[..i + 1][..i] == cs[..i];
  }

  /** One more collider, as seen by one destroyable: it was hit by it or not. */
  lemma TallyStep(life0: int32, requested0: bool, n: nat, life: int32, requested: bool, hitThis: bool,
                  life': int32, requested': bool, dmg: int32, m: nat)
    requires life == LifeAfter(life0, dmg, n) && requested == (requested0 || Dies(life0, dmg, n))
    requires hitThis ==> life' == Wrap32(life as int - dmg as int) && requested' == (requested || life' <= 0)
    requires !hitThis ==> life' == life && requested' == requested
    requires m == if hitThis then n + 1 else n
    ensures life' == LifeAfter(life0, dmg, m) && requested' == (requested0 || Dies(life0, dmg, m))
  {
  }

  /** The destroyables behind the colliders. */
  function Targets(cs: seq<BombCollider>): set<Destroyable>
  {
    set i | 0 <= i < |cs| && cs[i].destroyable.Some? :: cs[i].destroyable.value
  }

  class Bomb {
    const gravityMask: bv32
    const buildMask: bv32
    const bombDMG: int32
    /** The colliders pushed by explosion force, by index into the query result. */
    var pushed: seq<nat>
    /** The bomb has been destroyed (and its explosion effect spawned). */
    var exploded: bool

    constructor (gravityMask: bv32, buildMask: bv32, bombDMG: int32)
      ensures this.gravityMask == gravityMask && this.buildMask == buildMask && this.bombDMG == bombDMG
      ensures pushed == [] && !exploded
    {
      this.gravityMask := gravityMask;
      this.buildMask := buildMask;
      this.bombDMG := bombDMG;
      pushed := [];
      exploded := false;
    }

    /** The body of the loop in explode for the collider at `index`. */
    method Visit(hit: BombCollider, index: nat)
      modifies this`pushed, if hit.destroyable.Some? then {hit.destroyable.value} else {}
      ensures pushed == old(pushed) + (if Dispatch(hit, gravityMask, buildMask) == Pushed then [index] else [])
      ensures hit.destroyable.Some? ==>
                var d := hit.destroyable.value;
                if Dispatch(hit, gravityMask, buildMask) == Damaged
                then d.life == Wrap32(old(d.life) as int - bombDMG as int) && d.destroyRequested == (old(d.destroyRequested) || d.life <= 0)
                else d.life == old(d.life) && d.destroyRequested == old(d.destroyRequested)
    {
      if InMask(hit.layer, gravityMask) {
        if hit.hasRigidbody {
          pushed := pushed + [index];
        }
      } else if InMask(hit.layer, buildMask) {
        if hit.destroyable.Some? {
          var _ := hit.destroyable.value.GetDMG(bombDMG);
        }
      }
    }

    /**
     * The damage bookkeeping after the first `n` colliders: every destroyable
     * has taken one hit per damaging collider so far, from its life at the start.
     */
    ghost predicate Tallied(cs: seq<BombCollider>, n: nat, life0: map<Destroyable, int32>, requested0: map<Destroyable, bool>)
      requires n <= |cs|
      reads life0.Keys
    {
      forall d :: d in life0 && d in requested0 ==>
        && d.life == LifeAfter(life0[d], bombDMG, DamageCount(cs[..n], d, gravityMask, buildMask))
        && d.destroyRequested == (requested0[d] || Dies(life0[d], bombDMG, DamageCount(cs[..n], d, gravityMask, buildMask)))
    }

    /** One turn of the loop in explode, with its bookkeeping. */
    method Advance(colliders: seq<BombCollider>, i: nat, ghost life0: map<Destroyable, int32>, ghost requested0: map<Destroyable, bool>)
      requires i < |colliders|
      requires pushed == PushedIndices(colliders[..i], gravityMask, buildMask)
      requires Tallied(colliders, i, life0, requested0)
      modifies this`pushed, if colliders[i].destroyable.Some? then {colliders[i].destroyable.value} else {}
      ensures pushed == PushedIndices(colliders[..i + 1], gravityMask, buildMask)
      ensures Tallied(colliders, i + 1, life0, requested0)
    {
      PushedStep(colliders, i, gravityMask, buildMask);
      Visit(colliders[i], i);
      forall d | d in life0 && d in requested0
        ensures d.life == LifeAfter(life0[d], bombDMG, DamageCount(colliders[..i + 1], d, gravityMask, buildMask))
        ensures d.destroyRequested == (requested0[d] || Dies(life0[d], bombDMG, DamageCount(colliders[..i + 1], d, gravityMask, buildMask)))
      {
        DamageStep(colliders, i, d, gravityMask, buildMask);
        TallyStep(life0[d], requested0[d], DamageCount(colliders[..i], d, gravityMask, buildMask),
                  old(d.life), old(d.destroyRequested), Dispatch(colliders[i], gravityMask, buildMask) == Damaged && colliders[i].destroyable == Some(d),
                  d.life, d.destroyRequested, bombDMG, DamageCount(colliders[..i + 1], d, gravityMask, buildMask));
      }
    }

    /**
     * explode over the colliders the sphere query returned: each is visited once
     * and dispatched by layer, then the bomb is gone. A destroyable reached
     * through several colliders is damaged once per collider.
     */
    method Explode(colliders: seq<BombCollider>)
      modifies this, Targets(colliders)
      ensures pushed == PushedIndices(colliders, gravityMask, buildMask) && exploded
      ensures forall d :: d in Targets(colliders) ==>
                && d.life == LifeAfter(old(d.life), bombDMG, DamageCount(colliders, d, gravityMask, buildMask))
                && d.destroyRequested == (old(d.destroyRequested) || Dies(old(d.life), bombDMG, DamageCount(colliders, d, gravityMask, buildMask)))
    {
      ghost var life0: map<Destroyable, int32> := map d | d in Targets(colliders) :: d.life;
      ghost var requested0: map<Destroyable, bool> := map d | d in Targets(colliders) :: d.destroyRequested;
      pushed := [];
      var i := 0;
      while i < |colliders|
        invariant 0 <= i <= |colliders|
        invariant pushed == PushedIndices(colliders[..i], gravityMask, buildMask)
        invariant Tallied(colliders, i, life0, requested0)
      {
        assert colliders[i].destroyable.Some? ==> colliders[i].destroyable.value in Targets(colliders);
        Advance(colliders, i, life0, requested0);
        i := i + 1;
      }
      assert colliders[..i] == colliders;
      exploded := true;
      forall d | d in Targets(colliders)
        ensures d.life == LifeAfter(old(d.life), bombDMG, DamageCount(colliders, d, gravityMask, buildMask))
        ensures d.destroyRequested == (old(d.destroyRequested) || Dies(old(d.life), bombDMG, DamageCount(colliders, d, gravityMask, buildMask)))
      {
        assert life0[d] == old(d.life) && requested0[d] == old(d.destroyRequested);
      }
    }
  }
}
