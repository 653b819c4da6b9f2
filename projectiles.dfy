/** js/entities/Projectile.js: cannon balls, both the player's and the
    enemies'.  A projectile flies over the water in (x, y) and along a
    synthetic height axis integrated by Euler steps; when it comes down it
    skims, slowing and burning life until it is spent. */
module Projectiles {
  import opened Particles

  /** One sample of a friendly shot's visual trail. */
  datatype TrailPoint = TrailPoint(x: real, y: real, h: real, age: real)

  datatype ProjectileData = ProjectileData(
    x: real, y: real, vx: real, vy: real,
    isEnemy: bool, active: bool, life: int, size: real,
    height: real, zVel: real, gravity: real, damage: int,
    trail: seq<TrailPoint>)

  /** The fields of `new Projectile(x, y, vx, vy, isEnemy, damage)`; the
      source's defaults are isEnemy = false and damage = 10. */
  function Launched(x: real, y: real, vx: real, vy: real, isEnemy: bool, damage: int): (p: ProjectileData)
    ensures p.x == x && p.y == y && p.vx == vx && p.vy == vy
    ensures p.isEnemy == isEnemy && p.damage == damage
    ensures p.active && p.life == 180 && p.height == 10.0 && p.trail == []
    ensures isEnemy ==> p.size == 4.0 && p.zVel == 2.0 && p.gravity == 0.1
    ensures !isEnemy ==> p.size == 8.0 && p.zVel == 4.0 && p.gravity == 0.15
  {
    ProjectileData(x, y, vx, vy, isEnemy, true, 180,
                   if isEnemy then 4.0 else 8.0, 10.0,
                   if isEnemy then 2.0 else 4.0,
                   if isEnemy then 0.1 else 0.15,
                   damage, [])
  }

  /** Stage 1 of `update`: a friendly shot above the water leaves a trail
      sample where it is now, on every third frame. */
  predicate SamplesTrail(p: ProjectileData, frame: nat) {
    frame % 3 == 0 && !p.isEnemy && p.height > 0.0
  }

  function Trailed(p: ProjectileData, frame: nat): ProjectileData {
    if SamplesTrail(p, frame) then p.(trail := p.trail + [TrailPoint(p.x, p.y, p.height, 1.0)]) else p
  }

  /** Stage 2: move by the velocity, then integrate the height unless the
      shot has already sunk to -5 or below. */
  function Flown(p: ProjectileData): ProjectileData {
    var q := p.(x := p.x + p.vx, y := p.y + p.vy);
    if q.height > -5.0 then q.(height := q.height + q.zVel, zVel := q.zVel - q.gravity) else q
  }

  /** The height an update integrates to, before stage 3 looks at it. */
  function IntegratedHeight(p: ProjectileData): real {
    if p.height > -5.0 then p.height + p.zVel else p.height
  }

  /** Stage 3: at or below the water line the shot skims: height pinned to
      -1, velocity damped by 0.8 and 15 life burnt. */
  function Skimmed(p: ProjectileData): ProjectileData {
    if p.height <= 0.0 then p.(height := -1.0, vx := p.vx * 0.8, vy := p.vy * 0.8, life := p.life - 15) else p
  }

  /** Stage 4: a shot out of life is deactivated. */
  function Expired(p: ProjectileData): ProjectileData {
    if p.life <= 0 then p.(active := false) else p
  }

  /** One `Projectile.update` on frame `frame`. */
  function Advance(p: ProjectileData, frame: nat): (q: ProjectileData)
    ensures q.x == p.x + p.vx && q.y == p.y + p.vy
    ensures q.isEnemy == p.isEnemy && q.size == p.size && q.gravity == p.gravity && q.damage == p.damage
    ensures q.zVel == if p.height > -5.0 then p.zVel - p.gravity else p.zVel
    ensures IntegratedHeight(p) <= 0.0 ==>
              q.height == -1.0 && q.vx == p.vx * 0.8 && q.vy == p.vy * 0.8 && q.life == p.life - 15
    ensures IntegratedHeight(p) > 0.0 ==>
              q.height == IntegratedHeight(p) && q.vx == p.vx && q.vy == p.vy && q.life == p.life
    ensures q.active == (p.active && q.life > 0)
    ensures q.trail == if SamplesTrail(p, frame) then p.trail + [TrailPoint(p.x, p.y, p.height, 1.0)] else p.trail
  {
    Expired(Skimmed(Flown(Trailed(p, frame))))
  }

  /** The update of `p` on `frame` produces a water-impact effect: the shot
      was still active and, after integration, is descending with its
      height in (-3, 0]. */
  predicate Impacts(p: ProjectileData) {
    var h := IntegratedHeight(p);
    var z := if p.height > -5.0 then p.zVel - p.gravity else p.zVel;
    h <= 0.0 && p.active && z < 0.0 && h > -3.0
  }

  /** An impact is a landing: it happens only on an update that skims. */
  lemma ImpactOnlyWhenLanding(p: ProjectileData, frame: nat)
    requires Impacts(p)
    ensures p.active && IntegratedHeight(p) <= 0.0 && Advance(p, frame).height == -1.0
    ensures Advance(p, frame).life == p.life - 15
  {
  }

  /** `n` updates on the consecutive frames frame, frame + 1, ... */
  function Run(p: ProjectileData, frame: nat, n: nat): ProjectileData
    decreases n
  {
    if n == 0 then p else Run(Advance(p, frame), frame + 1, n - 1)
  }

  /** `active` is one-way: once false it is never set back, however many
      updates follow. */
  lemma {:induction false} StaysInactive(p: ProjectileData, frame: nat, n: nat)
    requires !p.active
    ensures !Run(p, frame, n).active
    decreases n
  {
    if n > 0 {
      StaysInactive(Advance(p, frame), frame + 1, n - 1);
    }
  }

  /** Life never grows, and the trail only ever grows, by at most one
      sample per update. */
  lemma {:induction false} RunMonotone(p: ProjectileData, frame: nat, n: nat)
    ensures Run(p, frame, n).life <= p.life
    ensures p.trail <= Run(p, frame, n).trail
    ensures |Run(p, frame, n).trail| <= |p.trail| + n
    decreases n
  {
    if n > 0 {
      RunMonotone(Advance(p, frame), frame + 1, n - 1);
    }
  }

  /** A deactivated projectile is not frozen: its update still moves it by
      its velocity (the code, unlike a "dead means untouched" reading, never
      tests `active` before moving). */
  lemma InactiveStillMoves(p: ProjectileData, frame: nat)
    requires !p.active && p.vx != 0.0
    ensures !Advance(p, frame).active && Advance(p, frame).x != p.x
  {
  }

  class Projectile {
    var x: real
    var y: real
    var vx: real
    var vy: real
    const isEnemy: bool
    var active: bool
    var life: int
    var size: real
    var height: real
    var zVel: real
    var gravity: real
    var damage: int
    var trail: seq<TrailPoint>

    function Model(): ProjectileData
      reads this
    {
      ProjectileData(x, y, vx, vy, isEnemy, active, life, size, height, zVel, gravity, damage, trail)
    }

    constructor (x0: real, y0: real, vx0: real, vy0: real, isEnemy0: bool, damage0: int)
      ensures Model() == Launched(x0, y0, vx0, vy0, isEnemy0, damage0)
    {
      x, y, vx, vy := x0, y0, vx0, vy0;
      isEnemy, active, life := isEnemy0, true, 180;
      size := if isEnemy0 then 4.0 else 8.0;
      height := 10.0;
      zVel := if isEnemy0 then 2.0 else 4.0;
      gravity := if isEnemy0 then 0.1 else 0.15;
      damage, trail := damage0, [];
    }

    /** `update` on frame `frame` (GameState.frameCount).  The splash a
        friendly shot makes, or the single white spark (speed 1) an enemy
        shot makes, is returned for the caller to push onto
        GameState.splashes or GameState.particles; `r1`, `r2`, `r3` are the
        Math.random draws the spark's constructor makes. */
    method Update(frame: nat, r1: real, r2: real, r3: real) returns (splashes: seq<Splash>, sparks: seq<Particle>)
      modifies this
      ensures Model() == Advance(old(Model()), frame)
      ensures !Impacts(old(Model())) ==> splashes == [] && sparks == []
      ensures Impacts(old(Model())) && !isEnemy ==>
                sparks == [] && |splashes| == 1 && fresh(splashes[0]) &&
                splashes[0].Model() == SplashAt(x, y)
      ensures Impacts(old(Model())) && isEnemy ==>
                splashes == [] && |sparks| == 1 && fresh(sparks[0]) &&
                sparks[0].Model() == ParticleAt(x, y, "#fff", 1.0, r1, r2, r3)
    {
      var impact := Fly(frame);
      // The effect is made where the shot touched the water; skimming
      // changes neither x nor y, so it can be made after the field updates.
      splashes, sparks := [], [];
      if impact {
        if !isEnemy {
          var s := new Splash(x, y);
          splashes := [s];
        } else {
          var spark := new Particle(x, y, "#fff", 1.0, r1, r2, r3);
          sparks := [spark];
        }
      }
    }

    /** The field updates of `update`, in the source's order; `impact`
        tells whether the water-impact branch was taken.  Each step is one
        statement group of the source. */
    method Fly(frame: nat) returns (impact: bool)
      modifies this
      ensures Model() == Advance(old(Model()), frame)
      ensures impact == Impacts(old(Model()))
    {
      SampleTrail(frame);
      Move();
      impact := Skim();
      Expire();
    }

    method SampleTrail(frame: nat)
      modifies this
      ensures Model() == Trailed(old(Model()), frame)
    {
      if frame % 3 == 0 && !isEnemy && height > 0.0 {
        trail := trail + [TrailPoint(x, y, height, 1.0)];
      }
    }

    method Move()
      modifies this
      ensures Model() == Flown(old(Model()))
    {
      x := x + vx;
      y := y + vy;
      if height > -5.0 {
        height := height + zVel;
        zVel := zVel - gravity;
      }
    }

    /** Returns whether the shot, just integrated, is an active shot
        descending through (-3, 0]. */
    method Skim() returns (impact: bool)
      modifies this
      ensures Model() == Skimmed(old(Model()))
      ensures impact == (old(height) <= 0.0 && old(active) && old(zVel) < 0.0 && old(height) > -3.0)
    {
      impact := false;
      if height <= 0.0 {
        impact := active && zVel < 0.0 && height > -3.0;
        height := -1.0;
        vx := vx * 0.8;
        vy := vy * 0.8;
        life := life - 15;
      }
    }

    method Expire()
      modifies this
      ensures Model() == Expired(old(Model()))
    {
      if life <= 0 {
        active := false;
      }
    }
  }
}
