/** js/systems/Input.js: the fling gesture.  A press near the ship starts a
    drag, moves update its current point, and the release turns the drag
    displacement and duration into a friendly shot. */
module Input {
  import opened Geometry
  import opened ShipRecord
  import opened Projectiles
  import opened State

  /** The coordinates a mouse or touch event carries. */
  datatype PointerEvent = PointerEvent(clientX: real, clientY: real, pageX: real, pageY: real)

  /** `e.clientX || e.pageX`: the client coordinate, unless it is 0. */
  function Coord(client: real, page: real): real {
    if client != 0.0 then client else page
  }

  /** GameState's drag fields. */
  datatype Drag = Drag(dragging: bool, start: DragStamp, current: Point)

  /** Presses are ignored while paused, before the game starts, while
      sinking, in port and in the menu. */
  predicate CanAim(c: Session, ship: Ship) {
    !c.isPaused && c.gameActive && !ship.sinking && !c.inPort && !c.inMenu
  }

  /** `startDrag(e)` at time `now`. */
  function DragStarted(d: Drag, c: Session, ship: Ship, e: PointerEvent, now: int, trig: Trig): (r: Drag)
    ensures !CanAim(c, ship) ==> r == d
    ensures r == d || r == Drag(true, DragStamp(Coord(e.clientX, e.pageX), Coord(e.clientY, e.pageY), now),
                                 Point(Coord(e.clientX, e.pageX), Coord(e.clientY, e.pageY)))
  {
    if !CanAim(c, ship) then d
    else
      var x := Coord(e.clientX, e.pageX);
      var y := Coord(e.clientY, e.pageY);
      if trig.hypot(x - ship.x, y - ship.y) < 100.0 then Drag(true, DragStamp(x, y, now), Point(x, y)) else d
  }

  /** With the real `hypot`, an aimable press begins a drag exactly when it
      lands within 100 of the ship. */
  lemma StartNearShip(d: Drag, c: Session, ship: Ship, e: PointerEvent, now: int, trig: Trig)
    requires IsHypot(trig.hypot) && CanAim(c, ship)
    ensures var x := Coord(e.clientX, e.pageX);
            var y := Coord(e.clientY, e.pageY);
            var r := DragStarted(d, c, ship, e, now, trig);
            ((x - ship.x) * (x - ship.x) + (y - ship.y) * (y - ship.y) < 10000.0 ==>
               r == Drag(true, DragStamp(x, y, now), Point(x, y)))
            && ((x - ship.x) * (x - ship.x) + (y - ship.y) * (y - ship.y) >= 10000.0 ==> r == d)
  {
    var x := Coord(e.clientX, e.pageX);
    var y := Coord(e.clientY, e.pageY);
    var m := trig.hypot(x - ship.x, y - ship.y);
    assert 0.0 <= m && m * m == (x - ship.x) * (x - ship.x) + (y - ship.y) * (y - ship.y);
    Squares(m, 100.0);
    if m >= 100.0 {
      Squares(100.0, m);
    }
  }

  /** `moveDrag(e)`: only a drag in progress follows the pointer. */
  function DragMoved(d: Drag, e: PointerEvent): (r: Drag)
    ensures !d.dragging ==> r == d
    ensures d.dragging ==> r == d.(current := Point(Coord(e.clientX, e.pageX), Coord(e.clientY, e.pageY)))
  {
    if !d.dragging then d
    else d.(current := Point(Coord(e.clientX, e.pageX), Coord(e.clientY, e.pageY)))
  }

  /** The fling velocity: the drag displacement times 40 over the drag
      time in ms, counted as at least 40. */
  function FlingVelocity(start: DragStamp, current: Point, now: int): (real, real) {
    var dt := now - start.time;
    var timeFactor := Max(dt, 40) as real;
    var power := 40.0;
    ((current.x - start.x) / timeFactor * power, (current.y - start.y) / timeFactor * power)
  }

  lemma ScaleDown(a: real, t: real)
    requires t >= 40.0
    ensures (a / t * 40.0) * (a / t * 40.0) <= a * a
  {
    var r := 40.0 / t;
    assert 0.0 < r <= 1.0;
    assert a / t * 40.0 == a * r;
    assert (a * r) * (a * r) == (a * a) * (r * r);
    assert r * r <= 1.0;
  }

  /** A fling is never faster than the drag was long: each velocity
      component is the displacement scaled by 40 / max(dt, 40) <= 1. */
  lemma FlingNoFasterThanDrag(start: DragStamp, current: Point, now: int)
    ensures var (vx, vy) := FlingVelocity(start, current, now);
            var (dx, dy) := (current.x - start.x, current.y - start.y);
            vx * vx <= dx * dx && vy * vy <= dy * dy && vx * vx + vy * vy <= dx * dx + dy * dy
  {
    var t := Max(now - start.time, 40) as real;
    ScaleDown(current.x - start.x, t);
    ScaleDown(current.y - start.y, t);
  }

  /** The factor `endDrag` scales a fling of speed `mag` by: 16 / mag
      above the cap of 16, else 1. */
  function CapRatio(mag: real): real {
    if mag > 16.0 then 16.0 / mag else 1.0
  }

  /** The shot velocity for a fling of speed `mag`: none unless faster than
      3, capped at 16 by scaling both components by 16 / mag. */
  function Capped(vx: real, vy: real, mag: real): Option<(real, real)> {
    if mag > 3.0 then
      if mag > 16.0 then Some((vx * (16.0 / mag), vy * (16.0 / mag))) else Some((vx, vy))
    else None
  }

  /** When `mag` is the speed of (vx, vy): a shot is fired exactly when it
      exceeds 3; a shot's speed is above 3 and at most 16, exactly 16 when
      capped; capping keeps the direction, scaling both components by one
      ratio in (0, 1]. */
  lemma CappedSpeed(vx: real, vy: real, mag: real)
    requires 0.0 <= mag && mag * mag == vx * vx + vy * vy
    ensures Capped(vx, vy, mag).None? <==> mag <= 3.0
    ensures Capped(vx, vy, mag).Some? ==>
              var (cx, cy) := Capped(vx, vy, mag).value;
              && 9.0 < cx * cx + cy * cy <= 256.0
              && (mag > 16.0 ==> cx * cx + cy * cy == 256.0)
              && 0.0 < CapRatio(mag) <= 1.0
              && cx == vx * CapRatio(mag) && cy == vy * CapRatio(mag)
  {
    if mag > 16.0 {
      CapScale(vx, vy, mag);
    } else if mag > 3.0 {
      Squares(3.0, mag);
      Squares(mag, 16.0);
    }
  }

  /** Scaling by r multiplies the squared speed by r * r. */
  lemma ScaleSpeed(vx: real, vy: real, r: real)
    ensures (vx * r) * (vx * r) + (vy * r) * (vy * r) == (vx * vx + vy * vy) * (r * r)
  {
  }

  lemma CapScale(vx: real, vy: real, mag: real)
    requires 16.0 < mag && mag * mag == vx * vx + vy * vy
    ensures var r := 16.0 / mag;
            0.0 < r <= 1.0 && (vx * r) * (vx * r) + (vy * r) * (vy * r) == 256.0
  {
    var r := 16.0 / mag;
    assert r * mag == 16.0;
    ScaleSpeed(vx, vy, r);
    assert (mag * mag) * (r * r) == (r * mag) * (r * mag);
  }

  /** Squaring is monotone on the non-negative reals. */
  lemma Squares(a: real, b: real)
    requires 0.0 <= a
    ensures a < b ==> a * a < b * b
    ensures a <= b ==> a * a <= b * b
  {
    if a <= b {
      var p := (b - a) * (b + a);
      assert b * b - a * a == p;
      if a < b {
        Positive(b - a, b + a);
      } else {
        assert p == 0.0;
      }
    }
  }

  lemma Positive(a: real, b: real)
    requires 0.0 < a && 0.0 < b
    ensures 0.0 < a * b
  {
  }

  lemma ScaleBelow(a: real, r: real)
    requires 0.0 <= a && 0.0 <= r <= 1.0
    ensures a * r <= a
  {
    assert a - a * r == a * (1.0 - r);
  }

  /** The velocity of the shot `endDrag` fires, if any. */
  function Fired(d: Drag, now: int, trig: Trig): Option<(real, real)> {
    var (vx, vy) := FlingVelocity(d.start, d.current, now);
    Capped(vx, vy, trig.hypot(vx, vy))
  }

  /** A fired shot is faster than 3 and never faster than 16. */
  lemma FiredSpeed(d: Drag, now: int, trig: Trig)
    requires IsHypot(trig.hypot)
    ensures Fired(d, now, trig).Some? ==>
              var (cx, cy) := Fired(d, now, trig).value;
              9.0 < cx * cx + cy * cy <= 256.0
  {
    var (vx, vy) := FlingVelocity(d.start, d.current, now);
    var mag := trig.hypot(vx, vy);
    CappedSpeed(vx, vy, mag);
  }

  /** A fired shot is never faster than the drag is long. */
  lemma FiredNoFasterThanDrag(d: Drag, now: int, trig: Trig)
    requires IsHypot(trig.hypot)
    ensures Fired(d, now, trig).Some? ==>
              var (cx, cy) := Fired(d, now, trig).value;
              var (dx, dy) := (d.current.x - d.start.x, d.current.y - d.start.y);
              cx * cx + cy * cy <= dx * dx + dy * dy
  {
    var (vx, vy) := FlingVelocity(d.start, d.current, now);
    var mag := trig.hypot(vx, vy);
    FlingNoFasterThanDrag(d.start, d.current, now);
    CappedNoFaster(vx, vy, mag, (d.current.x - d.start.x) * (d.current.x - d.start.x) +
                                (d.current.y - d.start.y) * (d.current.y - d.start.y));
  }

  /** Capping never speeds a shot up. */
  lemma CappedNoFaster(vx: real, vy: real, mag: real, bound: real)
    requires 0.0 <= mag && mag * mag == vx * vx + vy * vy && vx * vx + vy * vy <= bound
    ensures Capped(vx, vy, mag).Some? ==>
              var (cx, cy) := Capped(vx, vy, mag).value;
              cx * cx + cy * cy <= bound
  {
    if mag > 16.0 {
      var r := 16.0 / mag;
      assert 0.0 < r <= 1.0;
      Squares(0.0, mag);
      Squares(0.0, r);
      ScaleSpeed(vx, vy, r);
      ScaleBelow(r, r);
      ScaleBelow(vx * vx + vy * vy, r * r);
    }
  }

  /** `startDrag(e)`; `now` is Date.now(). */
  method StartDrag(game: Game, e: PointerEvent, now: int, trig: Trig)
    modifies game`isDraggingAmmo, game`dragStartPos, game`dragCurrentPos
    ensures Drag(game.isDraggingAmmo, game.dragStartPos, game.dragCurrentPos)
            == DragStarted(old(Drag(game.isDraggingAmmo, game.dragStartPos, game.dragCurrentPos)),
                           game.Scalars(), game.ship, e, now, trig)
  {
    if game.isPaused || !game.gameActive || game.ship.sinking || game.inPort || game.inMenu {
      return;
    }
    var x := if e.clientX != 0.0 then e.clientX else e.pageX;
    var y := if e.clientY != 0.0 then e.clientY else e.pageY;
    var dist := trig.hypot(x - game.ship.x, y - game.ship.y);
    if dist < 100.0 {
      game.isDraggingAmmo := true;
      game.dragStartPos := DragStamp(x, y, now);
      game.dragCurrentPos := Point(x, y);
    }
  }

  /** `moveDrag(e)`. */
  method MoveDrag(game: Game, e: PointerEvent)
    modifies game`dragCurrentPos
    ensures Drag(game.isDraggingAmmo, game.dragStartPos, game.dragCurrentPos)
            == DragMoved(old(Drag(game.isDraggingAmmo, game.dragStartPos, game.dragCurrentPos)), e)
  {
    if !game.isDraggingAmmo {
      return;
    }
    var x := if e.clientX != 0.0 then e.clientX else e.pageX;
    var y := if e.clientY != 0.0 then e.clientY else e.pageY;
    game.dragCurrentPos := Point(x, y);
  }

  /** `endDrag(e)` at time `now` (the event's coordinates are not read).
      A drag in progress always ends; a fast enough fling pushes one new
      friendly shot from the ship onto GameState.projectiles. */
  method EndDrag(game: Game, now: int, trig: Trig)
    requires game.Valid()
    modifies game`isDraggingAmmo, game`projectiles
    ensures game.Valid()
    ensures !old(game.isDraggingAmmo) ==> game.isDraggingAmmo == old(game.isDraggingAmmo) &&
                                          game.projectiles == old(game.projectiles)
    ensures old(game.isDraggingAmmo) ==> !game.isDraggingAmmo
    ensures var shot := Fired(Drag(true, game.dragStartPos, game.dragCurrentPos), now, trig);
            old(game.isDraggingAmmo) && shot.None? ==> game.projectiles == old(game.projectiles)
    ensures var shot := Fired(Drag(true, game.dragStartPos, game.dragCurrentPos), now, trig);
            old(game.isDraggingAmmo) && shot.Some? ==>
              && |game.projectiles| == |old(game.projectiles)| + 1
              && game.projectiles[..|old(game.projectiles)|] == old(game.projectiles)
              && var p := game.projectiles[|old(game.projectiles)|];
                 fresh(p) && p.Model() == Launched(game.ship.x, game.ship.y, shot.value.0, shot.value.1, false, 10)
  {
    if !game.isDraggingAmmo {
      return;
    }
    var dt := now - game.dragStartPos.time;
    var dx := game.dragCurrentPos.x - game.dragStartPos.x;
    var dy := game.dragCurrentPos.y - game.dragStartPos.y;
    var timeFactor := Max(dt, 40) as real;
    var power := 40.0;
    var vx := dx / timeFactor * power;
    var vy := dy / timeFactor * power;
    var mag := trig.hypot(vx, vy);
    if mag > 3.0 {
      var maxSpeed := 16.0;
      if mag > maxSpeed {
        var ratio := maxSpeed / mag;
        vx := vx * ratio;
        vy := vy * ratio;
      }
      var p := new Projectile(game.ship.x, game.ship.y, vx, vy, false, 10);
      DistinctSnoc(game.projectiles, p);
      game.projectiles := game.projectiles + [p];
    }
    game.isDraggingAmmo := false;
  }
}
