/** js/entities/Enemy.js: the enemy vessels.  The type tag picks the base
    stats, the movement rule and whether the enemy fires.  `Model()` gives
    the value of an enemy's fields and each method is proved against a
    function on those values. */
module Enemies {
  import opened Geometry
  import opened Particles
  import opened ShipRecord
  import opened Projectiles

  /** The `type` string: 'gunboat', 'serpent', 'boss', or anything else
      (the spawner's 'raft'), which keeps the default stats and tracking. */
  datatype EnemyType = Raft | Gunboat | Serpent | Boss

  datatype EnemyData = EnemyData(
    kind: EnemyType,
    x: real, y: real,
    dead: bool,
    maxHp: int, hp: int,
    speed: real, size: real,
    angle: real,
    reload: int,
    sway: real,
    color: string,
    toExplode: bool)

  /** Spawn positions lie this far outside the canvas. */
  const Margin: real := 50.0

  /** The edge a spawn uses, Math.floor(Math.random() * 3): 0 top, 1 left,
      anything else right. */
  function SpawnSide(r0: real): int {
    (r0 * 3.0).Floor
  }

  /** The fields the constructor sets before calling `initStats`. */
  function Unstatted(kind: EnemyType, w: real, h: real, r0: real, r1: real, r2: real): EnemyData {
    var side := SpawnSide(r0);
    var x := if side == 0 then r1 * w else if side == 1 then -Margin else w + Margin;
    var y := if side == 0 then -Margin else r1 * h * 0.6;
    EnemyData(kind, x, y, false, 20, 0, 0.2, 20.0, 0.0, 0, r2 * 100.0, "#92400e", false)
  }

  /** `initStats(wave, canvasWidth)`. */
  function WithStats(e: EnemyData, wave: int, w: real): EnemyData {
    match e.kind
    case Gunboat => e.(maxHp := 30, speed := 0.4, color := "#374151")
    case Serpent => e.(maxHp := 60, speed := 0.4, color := "#047857", size := 25.0)
    case Boss => e.(maxHp := 300 + wave * 50, speed := 0.1, color := "#7f1d1d", size := 50.0,
                    x := w / 2.0, y := -80.0)
    case Raft => e
  }

  /** The fields of `new Enemy(kind, w, h, wave)` whose three Math.random
      draws are r0 (the edge), r1 (the position along it) and r2 (the sway
      phase, times 100). */
  function Spawned(kind: EnemyType, w: real, h: real, wave: int, r0: real, r1: real, r2: real): (e: EnemyData)
    ensures e.kind == kind && e.hp == e.maxHp
    ensures !e.dead && !e.toExplode && e.angle == 0.0 && e.reload == 0 && e.sway == r2 * 100.0
    ensures kind == Raft ==> e.maxHp == 20 && e.speed == 0.2 && e.size == 20.0
    ensures kind == Gunboat ==> e.maxHp == 30 && e.speed == 0.4 && e.size == 20.0
    ensures kind == Serpent ==> e.maxHp == 60 && e.speed == 0.4 && e.size == 25.0
    ensures kind == Boss ==> e.maxHp == 300 + 50 * wave && e.speed == 0.1 && e.size == 50.0
    ensures kind == Boss ==> e.x == w / 2.0 && e.y == -80.0
  {
    var e := WithStats(Unstatted(kind, w, h, r0, r1, r2), wave, w);
    e.(hp := e.maxHp)
  }

  /** Every enemy but the boss appears just outside the top, left or right
      edge: on the top edge at y = -50 over the canvas width, or on a side
      edge at x = -50 or x = w + 50, in the upper 60% of the canvas. */
  lemma SpawnOnEdge(kind: EnemyType, w: real, h: real, wave: int, r0: real, r1: real, r2: real)
    requires kind != Boss && IsDraw(r0) && IsDraw(r1) && w > 0.0 && h > 0.0
    ensures var e := Spawned(kind, w, h, wave, r0, r1, r2);
            (e.y == -50.0 && 0.0 <= e.x < w) ||
            (e.x == -50.0 && 0.0 <= e.y < 0.6 * h) ||
            (e.x == w + 50.0 && 0.0 <= e.y < 0.6 * h)
  {
    UnstattedOnEdge(kind, w, h, r0, r1, r2);
    var e := Spawned(kind, w, h, wave, r0, r1, r2);
    var u := Unstatted(kind, w, h, r0, r1, r2);
    assert e.x == u.x && e.y == u.y;
  }

  /** The position the constructor draws, before `initStats`. */
  lemma UnstattedOnEdge(kind: EnemyType, w: real, h: real, r0: real, r1: real, r2: real)
    requires IsDraw(r0) && IsDraw(r1) && w > 0.0 && h > 0.0
    ensures var u := Unstatted(kind, w, h, r0, r1, r2);
            (u.y == -50.0 && 0.0 <= u.x < w) ||
            (u.x == -50.0 && 0.0 <= u.y < 0.6 * h) ||
            (u.x == w + 50.0 && 0.0 <= u.y < 0.6 * h)
  {
    var side := SpawnSide(r0);
    assert 0 <= side < 3;
    if side == 0 {
      DrawScales(r1, w);
    } else {
      var depth := r1 * h;
      DrawScales(r1, h);
      assert 0.0 <= depth < h;
      ScaledBelow(depth, h, 0.6);
    }
  }

  /** A draw in [0, 1) scales a positive length into [0, length). */
  lemma DrawScales(r: real, a: real)
    requires 0.0 <= r < 1.0 && a > 0.0
    ensures 0.0 <= r * a < a
  {
  }

  /** Scaling by a positive factor keeps a strict order. */
  lemma ScaledBelow(x: real, y: real, c: real)
    requires 0.0 <= x < y && c > 0.0
    ensures 0.0 <= x * c < y * c
  {
  }

  /** Stage 1 of `moveBehavior`: an enemy other than the boss within 20 of
      a side edge is nudged 0.5 back inwards (the two tests run one after
      the other). */
  function Nudged(e: EnemyData, w: real): (r: EnemyData)
    ensures r == e.(x := r.x)
    ensures e.kind == Boss ==> r == e
    ensures e.kind != Boss && 20.0 <= e.x <= w - 20.0 ==> r == e
    ensures e.kind != Boss && e.x < 20.0 && e.x + 0.5 <= w - 20.0 ==> r.x == e.x + 0.5
    ensures e.kind != Boss && 20.0 <= e.x && e.x > w - 20.0 ==> r.x == e.x - 0.5
    ensures e.kind != Boss && e.x < 20.0 && e.x + 0.5 > w - 20.0 ==> r.x == e.x
  {
    if e.kind == Boss then e
    else
      var e1 := if e.x < 20.0 then e.(x := e.x + 0.5) else e;
      if e1.x > w - 20.0 then e1.(x := e1.x - 0.5) else e1
  }

  /** Stage 2 of `moveBehavior`: the movement rule of the type.  A serpent
      tracks the ship with a sinusoidal sway, the boss weaves in x and eases
      towards a band 350 above the ship, the others track the ship. */
  function Steered(e: EnemyData, dx: real, dy: real, ship: Ship, trig: Trig): EnemyData {
    match e.kind
    case Serpent =>
      var sway := e.sway + 0.05;
      var a := trig.atan2(dy, dx) + trig.sin(sway) * 0.5;
      e.(sway := sway, angle := a, x := e.x + trig.cos(a) * e.speed, y := e.y + trig.sin(a) * e.speed)
    case Boss =>
      var sway := e.sway + 0.015;
      var targetY := (ship.y - 350.0) + trig.cos(sway * 2.0) * 80.0;
      e.(sway := sway, x := e.x + trig.sin(sway) * 1.5, y := e.y + (targetY - e.y) * 0.02,
         angle := trig.atan2(dy, dx))
    case _ =>
      var a := trig.atan2(dy, dx);
      e.(angle := a, x := e.x + trig.cos(a) * e.speed, y := e.y + trig.sin(a) * e.speed)
  }

  /** `moveBehavior(dx, dy, dist, canvasWidth, ship)`: nudge, steer, then
      drift 0.1 down the screen. */
  function Moved(e: EnemyData, dx: real, dy: real, w: real, ship: Ship, trig: Trig): (r: EnemyData)
    ensures r == e.(x := r.x, y := r.y, angle := r.angle, sway := r.sway)
    ensures r.y == Steered(Nudged(e, w), dx, dy, ship, trig).y + 0.1
    ensures r.sway == e.sway + (match e.kind case Serpent => 0.05 case Boss => 0.015 case _ => 0.0)
  {
    var s := Steered(Nudged(e, w), dx, dy, ship, trig);
    s.(y := s.y + 0.1)
  }

  /** Only gunboats and the boss carry guns. */
  predicate Armed(kind: EnemyType) {
    kind == Gunboat || kind == Boss
  }

  function ShootRange(kind: EnemyType): real {
    if kind == Boss then 700.0 else 500.0
  }

  function FireRate(kind: EnemyType): int {
    if kind == Boss then 200 else 300
  }

  /** `shootBehavior(dist, ship)` fires: an armed enemy whose decremented
      reload is used up and whose target is within range. */
  predicate Fires(e: EnemyData, dist: real) {
    Armed(e.kind) && e.reload - 1 <= 0 && dist < ShootRange(e.kind)
  }

  /** The reload countdown of `shootBehavior`. */
  function Reloaded(e: EnemyData, dist: real): (r: EnemyData)
    ensures r == e.(reload := r.reload)
    ensures !Armed(e.kind) ==> r.reload == e.reload
    ensures Armed(e.kind) ==> r.reload == if Fires(e, dist) then FireRate(e.kind) else e.reload - 1
  {
    if !Armed(e.kind) then e
    else if Fires(e, dist) then e.(reload := FireRate(e.kind))
    else e.(reload := e.reload - 1)
  }

  /** The enemy shot `shootBehavior` creates: from the enemy, at speed 3,
      aimed at the ship. */
  function ShotFrom(e: EnemyData, ship: Ship, trig: Trig): (p: ProjectileData)
    ensures p == Launched(p.x, p.y, p.vx, p.vy, true, 10)
    ensures p.x == e.x && p.y == e.y
  {
    var a := trig.atan2(ship.y - e.y, ship.x - e.x);
    Launched(e.x, e.y, trig.cos(a) * 3.0, trig.sin(a) * 3.0, true, 10)
  }

  /** The distance `update` measures, before moving. */
  function Distance(e: EnemyData, ship: Ship, trig: Trig): real {
    trig.hypot(ship.x - e.x, ship.y - e.y)
  }

  /** `update` returns early at once: the enemy is dead or the ship sinks. */
  predicate Idle(e: EnemyData, ship: Ship) {
    e.dead || ship.sinking
  }

  /** Close enough to the ship to flag an explosion. */
  predicate InContact(e: EnemyData, ship: Ship, trig: Trig) {
    Distance(e, ship, trig) < e.size + 40.0
  }

  /** `update(ship, canvasWidth, canvasHeight)`. */
  function Updated(e: EnemyData, ship: Ship, w: real, h: real, trig: Trig): EnemyData {
    if Idle(e, ship) then e
    else
      var dist := Distance(e, ship, trig);
      var m := Moved(e, ship.x - e.x, ship.y - e.y, w, ship, trig);
      if dist < e.size + 40.0 then m.(toExplode := true)
      else
        ShotAndCulled(m, dist, h)
  }

  /** The end of `update` once the enemy has moved and is not touching the
      ship: `shootBehavior`, then death below the bottom edge. */
  function ShotAndCulled(m: EnemyData, dist: real, h: real): (r: EnemyData)
    ensures r == m.(reload := r.reload, dead := r.dead)
    ensures r.dead <==> m.dead || m.y > h + 50.0
  {
    var f := Reloaded(m, dist);
    if f.y > h + 50.0 then f.(dead := true) else f
  }

  /** The shots one `update` appends to GameState.enemyProjectiles. */
  function ShotsOf(e: EnemyData, ship: Ship, w: real, h: real, trig: Trig): (shots: seq<ProjectileData>)
    ensures |shots| <= 1
    ensures forall i :: 0 <= i < |shots| ==> shots[i].isEnemy && shots[i].active
  {
    if Idle(e, ship) || InContact(e, ship, trig) then []
    else
      var m := Moved(e, ship.x - e.x, ship.y - e.y, w, ship, trig);
      if Fires(m, Distance(e, ship, trig)) then [ShotFrom(m, ship, trig)] else []
  }

  /** An idle update changes nothing and fires nothing. */
  lemma IdleUpdate(e: EnemyData, ship: Ship, w: real, h: real, trig: Trig)
    requires Idle(e, ship)
    ensures Updated(e, ship, w, h, trig) == e && ShotsOf(e, ship, w, h, trig) == []
  {
  }

  /** On contact the enemy only moves and raises `toExplode`: it does not
      die, its reload is not touched and it does not fire.  Without contact
      `toExplode` keeps its value. */
  lemma ContactUpdate(e: EnemyData, ship: Ship, w: real, h: real, trig: Trig)
    requires !Idle(e, ship)
    ensures var r := Updated(e, ship, w, h, trig);
            InContact(e, ship, trig) ==>
              r.toExplode && r.dead == e.dead && r.reload == e.reload && ShotsOf(e, ship, w, h, trig) == []
    ensures !InContact(e, ship, trig) ==> Updated(e, ship, w, h, trig).toExplode == e.toExplode
  {
  }

  /** An update without contact: the reload of a gunboat or the boss drops
      by one, or, when it is used up with the ship in range, is reset to the
      fire rate as exactly one shot is fired from the enemy's new position;
      other types never touch the reload and never fire.  The enemy dies
      exactly when its new y is below canvasHeight + 50. */
  lemma FreeUpdate(e: EnemyData, ship: Ship, w: real, h: real, trig: Trig)
    requires !Idle(e, ship) && !InContact(e, ship, trig)
    ensures var r := Updated(e, ship, w, h, trig);
            var m := Moved(e, ship.x - e.x, ship.y - e.y, w, ship, trig);
            var firing := Armed(e.kind) && e.reload <= 1 && Distance(e, ship, trig) < ShootRange(e.kind);
            && r.x == m.x && r.y == m.y
            && r.dead == (m.y > h + 50.0)
            && (!Armed(e.kind) ==> r.reload == e.reload)
            && (Armed(e.kind) ==> r.reload == if firing then FireRate(e.kind) else e.reload - 1)
            && ShotsOf(e, ship, w, h, trig) == if firing then [ShotFrom(m, ship, trig)] else []
  {
  }

  /** A new gunboat or boss (reload 0) fires on its first update that
      finds it alive, out of contact and with the ship in range. */
  lemma FirstUpdateFires(kind: EnemyType, w: real, h: real, wave: int, r0: real, r1: real, r2: real,
                         ship: Ship, trig: Trig)
    requires Armed(kind)
    requires var e := Spawned(kind, w, h, wave, r0, r1, r2);
             !ship.sinking && !InContact(e, ship, trig) && Distance(e, ship, trig) < ShootRange(kind)
    ensures var e := Spawned(kind, w, h, wave, r0, r1, r2);
            |ShotsOf(e, ship, w, h, trig)| == 1 && Updated(e, ship, w, h, trig).reload == FireRate(kind)
  {
    var e := Spawned(kind, w, h, wave, r0, r1, r2);
    FreeUpdate(e, ship, w, h, trig);
  }

  class Enemy {
    const kind: EnemyType
    var x: real
    var y: real
    var dead: bool
    var maxHp: int
    var hp: int
    var speed: real
    var size: real
    var angle: real
    var reload: int
    var sway: real
    var color: string
    var toExplode: bool

    function Model(): EnemyData
      reads this
    {
      EnemyData(kind, x, y, dead, maxHp, hp, speed, size, angle, reload, sway, color, toExplode)
    }

    /** `new Enemy(type, canvasWidth, canvasHeight, wave)`; r0, r1, r2 are
        its Math.random draws. */
    constructor (kind0: EnemyType, w: real, h: real, wave: int, r0: real, r1: real, r2: real)
      ensures Model() == Spawned(kind0, w, h, wave, r0, r1, r2)
    {
      var side := (r0 * 3.0).Floor;
      if side == 0 {
        x, y := r1 * w, -Margin;
      } else if side == 1 {
        x, y := -Margin, r1 * h * 0.6;
      } else {
        x, y := w + Margin, r1 * h * 0.6;
      }
      kind := kind0;
      dead := false;
      maxHp, speed, size := 20, 0.2, 20.0;
      angle, reload := 0.0, 0;
      sway := r2 * 100.0;
      color := "#92400e";
      hp, toExplode := 0, false;
      new;
      InitStats(wave, w);
      hp := maxHp;
    }

    method InitStats(wave: int, w: real)
      modifies this
      ensures Model() == WithStats(old(Model()), wave, w)
    {
      if kind == Gunboat {
        maxHp, speed, color := 30, 0.4, "#374151";
      } else if kind == Serpent {
        maxHp, speed, color, size := 60, 0.4, "#047857", 25.0;
      } else if kind == Boss {
        maxHp := 300 + wave * 50;
        speed := 0.1;
        color := "#7f1d1d";
        size := 50.0;
        x, y := w / 2.0, -80.0;
      }
    }

    /** `update(ship, canvasWidth, canvasHeight)`.  The shot it fires, if
        any, is returned for the caller to push onto
        GameState.enemyProjectiles. */
    method Update(ship: Ship, w: real, h: real, trig: Trig) returns (shots: seq<Projectile>)
      modifies this
      ensures Model() == Updated(old(Model()), ship, w, h, trig)
      ensures |shots| == |ShotsOf(old(Model()), ship, w, h, trig)|
      ensures forall i :: 0 <= i < |shots| ==>
                fresh(shots[i]) && shots[i].Model() == ShotsOf(old(Model()), ship, w, h, trig)[i]
    {
      shots := [];
      if dead || ship.sinking {
        return;
      }
      shots := Engage(ship, w, h, trig);
    }

    /** The part of `update` after the early return: move, then either flag
        the contact or shoot and check for leaving the bottom edge. */
    method Engage(ship: Ship, w: real, h: real, trig: Trig) returns (shots: seq<Projectile>)
      requires !Idle(Model(), ship)
      modifies this
      ensures Model() == Updated(old(Model()), ship, w, h, trig)
      ensures |shots| == |ShotsOf(old(Model()), ship, w, h, trig)|
      ensures forall i :: 0 <= i < |shots| ==>
                fresh(shots[i]) && shots[i].Model() == ShotsOf(old(Model()), ship, w, h, trig)[i]
    {
      shots := [];
      var dx := ship.x - x;
      var dy := ship.y - y;
      var dist := trig.hypot(dx, dy);
      MoveBehavior(dx, dy, dist, w, ship, trig);
      if dist < size + 40.0 {
        toExplode := true;
        return;
      }
      shots := ShootAndCull(dist, ship, h, trig);
    }

    /** `shootBehavior(dist, ship)` and the bottom-edge check after it. */
    method ShootAndCull(dist: real, ship: Ship, h: real, trig: Trig) returns (shots: seq<Projectile>)
      modifies this
      ensures Model() == ShotAndCulled(old(Model()), dist, h)
      ensures !Fires(old(Model()), dist) ==> shots == []
      ensures Fires(old(Model()), dist) ==>
                |shots| == 1 && fresh(shots[0]) && shots[0].Model() == ShotFrom(old(Model()), ship, trig)
    {
      shots := ShootBehavior(dist, ship, trig);
      if y > h + 50.0 {
        dead := true;
      }
    }

    /** `moveBehavior(dx, dy, dist, canvasWidth, ship)`; `dist` is unused
        there too. */
    method MoveBehavior(dx: real, dy: real, dist: real, w: real, ship: Ship, trig: Trig)
      modifies this
      ensures Model() == Moved(old(Model()), dx, dy, w, ship, trig)
    {
      NudgeFromEdges(w);
      Steer(dx, dy, ship, trig);
      y := y + 0.1;
    }

    /** The type's movement rule in `moveBehavior`. */
    method Steer(dx: real, dy: real, ship: Ship, trig: Trig)
      modifies this
      ensures Model() == Steered(old(Model()), dx, dy, ship, trig)
    {
      if kind == Serpent {
        Slither(dx, dy, ship, trig);
      } else if kind == Boss {
        Weave(dx, dy, ship, trig);
      } else {
        Track(dx, dy, ship, trig);
      }
    }

    /** The serpent tracks the ship with a sinusoidal sway. */
    method Slither(dx: real, dy: real, ship: Ship, trig: Trig)
      requires kind == Serpent
      modifies this
      ensures Model() == Steered(old(Model()), dx, dy, ship, trig)
    {
      var s := sway + 0.05;
      var a := trig.atan2(dy, dx) + trig.sin(s) * 0.5;
      sway, angle, x, y := s, a, x + trig.cos(a) * speed, y + trig.sin(a) * speed;
    }

    /** The boss weaves in x and eases towards a band 350 above the ship. */
    method Weave(dx: real, dy: real, ship: Ship, trig: Trig)
      requires kind == Boss
      modifies this
      ensures Model() == Steered(old(Model()), dx, dy, ship, trig)
    {
      var s := sway + 0.015;
      var targetY := (ship.y - 350.0) + trig.cos(s * 2.0) * 80.0;
      sway, x, y, angle := s, x + trig.sin(s) * 1.5, y + (targetY - y) * 0.02, trig.atan2(dy, dx);
    }

    /** The other types head straight for the ship. */
    method Track(dx: real, dy: real, ship: Ship, trig: Trig)
      requires kind != Serpent && kind != Boss
      modifies this
      ensures Model() == Steered(old(Model()), dx, dy, ship, trig)
    {
      var a := trig.atan2(dy, dx);
      angle, x, y := a, x + trig.cos(a) * speed, y + trig.sin(a) * speed;
    }

    /** The edge test at the head of `moveBehavior`. */
    method NudgeFromEdges(w: real)
      modifies this
      ensures Model() == Nudged(old(Model()), w)
    {
      if kind != Boss {
        if x < 20.0 {
          x := x + 0.5;
        }
        if x > w - 20.0 {
          x := x - 0.5;
        }
      }
    }

    /** `shootBehavior(dist, ship)`. */
    method ShootBehavior(dist: real, ship: Ship, trig: Trig) returns (shots: seq<Projectile>)
      modifies this
      ensures Model() == Reloaded(old(Model()), dist)
      ensures !Fires(old(Model()), dist) ==> shots == []
      ensures Fires(old(Model()), dist) ==>
                |shots| == 1 && fresh(shots[0]) && shots[0].Model() == ShotFrom(old(Model()), ship, trig)
    {
      shots := [];
      if kind == Gunboat || kind == Boss {
        reload := reload - 1;
        var shootDist := if kind == Boss then 700.0 else 500.0;
        var fireRate := if kind == Boss then 200 else 300;
        if reload <= 0 && dist < shootDist {
          reload := fireRate;
          var shotSpeed := 3.0;
          var shotAngle := trig.atan2(ship.y - y, ship.x - x);
          var p := new Projectile(x, y, trig.cos(shotAngle) * shotSpeed, trig.sin(shotAngle) * shotSpeed, true, 10);
          shots := [p];
        }
      }
    }
  }
}
