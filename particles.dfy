/** js/entities/Particle.js: the spark particles and the expanding water
    splashes.  Both are classes whose `update` changes their fields in place;
    `Model()` gives the value of an object's fields, and each method is
    proved against a function on those values. */
module Particles {

  /** A value Math.random can return. */
  predicate IsDraw(r: real) {
    0.0 <= r < 1.0
  }

  datatype ParticleData = ParticleData(
    x: real, y: real, vx: real, vy: real,
    life: real, color: string, size: real)

  datatype SplashData = SplashData(x: real, y: real, life: real, radius: real)

  /** The fields of `new Particle(x, y, color, speed)` whose three calls of
      Math.random return `r1`, `r2` and `r3`, in that order. */
  function ParticleAt(x: real, y: real, color: string, speed: real, r1: real, r2: real, r3: real): (p: ParticleData)
    ensures p.x == x && p.y == y && p.color == color
    ensures p.life == 1.0
    ensures IsDraw(r3) ==> 1.0 <= p.size < 3.0
    ensures IsDraw(r1) && speed > 0.0 ==> -speed / 2.0 <= p.vx < speed / 2.0
    ensures IsDraw(r2) && speed > 0.0 ==> -speed / 2.0 <= p.vy < speed / 2.0
  {
    ParticleData(x, y, (r1 - 0.5) * speed, (r2 - 0.5) * speed, 1.0, color, r3 * 2.0 + 1.0)
  }

  /** One `Particle.update`. */
  function ParticleTick(p: ParticleData): ParticleData {
    p.(x := p.x + p.vx, y := p.y + p.vy, life := p.life - 0.05)
  }

  function ParticleTicks(p: ParticleData, n: nat): ParticleData {
    if n == 0 then p else ParticleTick(ParticleTicks(p, n - 1))
  }

  /** After n updates a particle has moved n times its (unchanging)
      velocity and lost 0.05 of life per update; nothing else changes. */
  lemma {:induction false} ParticleAfter(p: ParticleData, n: nat)
    ensures ParticleTicks(p, n) == p.(x := p.x + n as real * p.vx,
                                      y := p.y + n as real * p.vy,
                                      life := p.life - 0.05 * n as real)
  {
    if n > 0 {
      ParticleAfter(p, n - 1);
    }
  }

  /** The fields of `new Splash(x, y)`. */
  function SplashAt(x: real, y: real): (s: SplashData)
    ensures s.x == x && s.y == y && s.life == 1.0 && s.radius == 0.0
  {
    SplashData(x, y, 1.0, 0.0)
  }

  /** One `Splash.update`. */
  function SplashTick(s: SplashData): SplashData {
    s.(life := s.life - 0.03, radius := s.radius + 1.5)
  }

  function SplashTicks(s: SplashData, n: nat): SplashData {
    if n == 0 then s else SplashTick(SplashTicks(s, n - 1))
  }

  /** A splash made at (x, y) has, after n updates, radius 1.5 * n and life
      1 - 0.03 * n, and it has not moved. */
  lemma {:induction false} SplashAfter(x: real, y: real, n: nat)
    ensures SplashTicks(SplashAt(x, y), n) == SplashData(x, y, 1.0 - 0.03 * n as real, 1.5 * n as real)
  {
    if n > 0 {
      SplashAfter(x, y, n - 1);
    }
  }

  class Particle {
    var x: real
    var y: real
    var vx: real
    var vy: real
    var life: real
    var color: string
    var size: real

    function Model(): ParticleData
      reads this
    {
      ParticleData(x, y, vx, vy, life, color, size)
    }

    /** `new Particle(x, y, color, speed)`; the source's default speed is 2. */
    constructor (x0: real, y0: real, color0: string, speed: real, r1: real, r2: real, r3: real)
      ensures Model() == ParticleAt(x0, y0, color0, speed, r1, r2, r3)
    {
      x, y := x0, y0;
      vx := (r1 - 0.5) * speed;
      vy := (r2 - 0.5) * speed;
      life, color := 1.0, color0;
      size := r3 * 2.0 + 1.0;
    }

    method Update()
      modifies this
      ensures Model() == ParticleTick(old(Model()))
    {
      x := x + vx;
      y := y + vy;
      life := life - 0.05;
    }
  }

  class Splash {
    var x: real
    var y: real
    var life: real
    var radius: real

    function Model(): SplashData
      reads this
    {
      SplashData(x, y, life, radius)
    }

    constructor (x0: real, y0: real)
      ensures Model() == SplashAt(x0, y0)
    {
      x, y, life, radius := x0, y0, 1.0, 0.0;
    }

    method Update()
      modifies this
      ensures Model() == SplashTick(old(Model()))
    {
      life := life - 0.03;
      radius := radius + 1.5;
    }
  }
}
