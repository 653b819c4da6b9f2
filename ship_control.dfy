/** js/entities/Ship.js: the hull layout of each tier and the captain's
    auto-helm.  Both rewrite fields of GameState.ship. */
module ShipControl {
  import opened Geometry
  import opened ShipRecord
  import opened Enemies
  import opened State

  /** Math.PI/1.5, the firing arc of a broadside cannon slot. */
  const BroadsideArc: real := PI / 1.5

  /** The weapon-slot table of each hull tier, written out slot by slot:
      tier 1 has a port and a starboard cannon and a bow swivel; tier 2
      moves those forward and adds an aft pair and a stern swivel; tier 3
      turns the bow swivel into a cannon, moves the guns and adds a third
      pair.  Tiers above 3 use the tier-3 table, tiers below 1 have none. */
  function SlotLayout(tier: int): (slots: seq<Slot>)
    ensures |slots| == if tier < 1 then 0 else if tier == 1 then 3 else if tier == 2 then 6 else 8
    ensures tier == 1 ==> forall i :: 0 <= i < |slots| ==> (slots[i].kind == Swivel <==> i == 2)
    ensures tier == 2 ==> forall i :: 0 <= i < |slots| ==> (slots[i].kind == Swivel <==> i == 2 || i == 5)
    ensures tier >= 3 ==> forall i :: 0 <= i < |slots| ==> (slots[i].kind == Swivel <==> i == 5)
    ensures forall i :: 0 <= i < |slots| ==>
              (slots[i].kind == Swivel ==> slots[i].arc == TAU) &&
              (slots[i].kind == Cannon && i != 2 ==> slots[i].arc == BroadsideArc)
  {
    if tier < 1 then []
    else if tier == 1 then
      [ Slot(-25.0, -10.0, PI, BroadsideArc, Cannon),
        Slot(25.0, -10.0, 0.0, BroadsideArc, Cannon),
        Slot(0.0, -50.0, -PI / 2.0, TAU, Swivel) ]
    else if tier == 2 then
      [ Slot(-25.0, -30.0, PI, BroadsideArc, Cannon),
        Slot(25.0, -30.0, 0.0, BroadsideArc, Cannon),
        Slot(0.0, -50.0, -PI / 2.0, TAU, Swivel),
        Slot(-25.0, 20.0, PI, BroadsideArc, Cannon),
        Slot(25.0, 20.0, 0.0, BroadsideArc, Cannon),
        Slot(0.0, 50.0, PI / 2.0, TAU, Swivel) ]
    else
      [ Slot(-25.0, -60.0, PI, BroadsideArc, Cannon),
        Slot(25.0, -60.0, 0.0, BroadsideArc, Cannon),
        Slot(0.0, -10.0, -PI / 2.0, TAU, Cannon),
        Slot(-25.0, -10.0, PI, BroadsideArc, Cannon),
        Slot(25.0, 70.0, 0.0, BroadsideArc, Cannon),
        Slot(0.0, 50.0, PI / 2.0, TAU, Swivel),
        Slot(-30.0, 40.0, PI, BroadsideArc, Cannon),
        Slot(30.0, 40.0, 0.0, BroadsideArc, Cannon) ]
  }

  /** The hull's (w, h) at a tier; below tier 1 the old size is kept. */
  function HullSize(tier: int, w: int, h: int): (int, int) {
    if tier < 1 then (w, h)
    else if tier == 1 then (60, 140)
    else if tier == 2 then (70, 160)
    else (80, 200)
  }

  /** `updateShipStats()`: clears the slot table and rebuilds it for the
      tier by pushing and then patching slots, as the source does.  The
      result depends on the tier alone, and the mounts are not touched. */
  method UpdateShipStats(game: Game)
    modifies game`ship
    ensures var s := old(game.ship);
            game.ship == s.(slots := SlotLayout(s.tier), w := HullSize(s.tier, s.w, s.h).0,
                            h := HullSize(s.tier, s.w, s.h).1)
  {
    var ship := game.ship;
    var slots: seq<Slot> := [];
    var w, h := ship.w, ship.h;
    if ship.tier >= 1 {
      w, h := 60, 140;
      slots := slots + [Slot(-25.0, -10.0, PI, PI / 1.5, Cannon)];
      slots := slots + [Slot(25.0, -10.0, 0.0, PI / 1.5, Cannon)];
      slots := slots + [Slot(0.0, -50.0, -PI / 2.0, PI * 2.0, Swivel)];
    }
    if ship.tier >= 2 {
      w, h := 70, 160;
      slots := slots[0 := slots[0].(y := -30.0)];
      slots := slots[1 := slots[1].(y := -30.0)];
      slots := slots + [Slot(-25.0, 20.0, PI, PI / 1.5, Cannon)];
      slots := slots + [Slot(25.0, 20.0, 0.0, PI / 1.5, Cannon)];
      slots := slots + [Slot(0.0, 50.0, PI / 2.0, PI * 2.0, Swivel)];
    }
    if ship.tier >= 3 {
      w, h := 80, 200;
      slots := slots[0 := slots[0].(y := -60.0)];
      slots := slots[1 := slots[1].(y := -60.0)];
      slots := slots[2 := slots[2].(kind := Cannon)];
      slots := slots[2 := slots[2].(y := -10.0)];
      slots := slots[3 := slots[3].(kind := Cannon)];
      slots := slots[3 := slots[3].(y := -10.0)];
      slots := slots + [Slot(-30.0, 40.0, PI, PI / 1.5, Cannon)];
      slots := slots + [Slot(30.0, 40.0, 0.0, PI / 1.5, Cannon)];
      slots := slots[4 := slots[4].(y := 70.0)];
    }
    game.ship := ship.(w := w, h := h, slots := slots);
  }

  /** The `find` test for the captain's preferred target. */
  predicate IsLiveBoss(e: EnemyData) {
    e.kind == Boss && !e.dead
  }

  /** `enemies.find(e => e.type === 'boss' && !e.dead)`, as an index: the
      first live boss, if there is one. */
  function FindLiveBoss(es: seq<EnemyData>): (r: Option<nat>)
    ensures r.Some? ==> r.value < |es| && IsLiveBoss(es[r.value])
    ensures r.Some? ==> forall j :: 0 <= j < r.value ==> !IsLiveBoss(es[j])
    ensures r.None? <==> forall j :: 0 <= j < |es| ==> !IsLiveBoss(es[j])
  {
    if es == [] then None
    else if IsLiveBoss(es[0]) then Some(0)
    else match FindLiveBoss(es[1..])
      case None => None
      case Some(k) => Some(k + 1)
  }

  /** The number of live enemies, as the `forEach` counts them. */
  function LiveCount(es: seq<EnemyData>): nat {
    if es == [] then 0 else LiveCount(es[..|es| - 1]) + (if es[|es| - 1].dead then 0 else 1)
  }

  /** The sum of the live enemies' x. */
  function LiveSumX(es: seq<EnemyData>): real {
    if es == [] then 0.0 else LiveSumX(es[..|es| - 1]) + (if es[|es| - 1].dead then 0.0 else es[|es| - 1].x)
  }

  /** The sum of the live enemies' y. */
  function LiveSumY(es: seq<EnemyData>): real {
    if es == [] then 0.0 else LiveSumY(es[..|es| - 1]) + (if es[|es| - 1].dead then 0.0 else es[|es| - 1].y)
  }

  /** No enemy is counted exactly when every enemy is dead. */
  lemma {:induction false} LiveCountZero(es: seq<EnemyData>)
    ensures LiveCount(es) == 0 <==> forall i :: 0 <= i < |es| ==> es[i].dead
  {
    if es != [] {
      var init := es[..|es| - 1];
      LiveCountZero(init);
      assert forall i :: 0 <= i < |init| ==> init[i] == es[i];
    }
  }

  /** When every live enemy has lo <= x <= hi, the sum of their x lies
      between lo and hi times their number. */
  lemma {:induction false} LiveSumXBounds(es: seq<EnemyData>, lo: real, hi: real)
    requires forall i :: 0 <= i < |es| && !es[i].dead ==> lo <= es[i].x <= hi
    ensures lo * LiveCount(es) as real <= LiveSumX(es) <= hi * LiveCount(es) as real
  {
    if es != [] {
      var init := es[..|es| - 1];
      assert forall i :: 0 <= i < |init| ==> init[i] == es[i];
      LiveSumXBounds(init, lo, hi);
      var last := es[|es| - 1];
      if last.dead {
        assert LiveSumX(es) == LiveSumX(init) && LiveCount(es) == LiveCount(init);
      } else {
        assert 0 <= |es| - 1 && !es[|es| - 1].dead;
        SumStep(LiveSumX(init), LiveCount(init) as real, lo, hi, last.x);
        assert LiveSumX(es) == LiveSumX(init) + last.x;
        assert LiveCount(es) as real == LiveCount(init) as real + 1.0;
      }
    }
  }

  lemma SumStep(s: real, n: real, lo: real, hi: real, v: real)
    requires lo * n <= s <= hi * n && lo <= v <= hi
    ensures lo * (n + 1.0) <= s + v <= hi * (n + 1.0)
  {
    assert lo * (n + 1.0) == lo * n + lo;
    assert hi * (n + 1.0) == hi * n + hi;
  }

  /** The same for y. */
  lemma {:induction false} LiveSumYBounds(es: seq<EnemyData>, lo: real, hi: real)
    requires forall i :: 0 <= i < |es| && !es[i].dead ==> lo <= es[i].y <= hi
    ensures lo * LiveCount(es) as real <= LiveSumY(es) <= hi * LiveCount(es) as real
  {
    if es != [] {
      var init := es[..|es| - 1];
      assert forall i :: 0 <= i < |init| ==> init[i] == es[i];
      LiveSumYBounds(init, lo, hi);
      var last := es[|es| - 1];
      if last.dead {
        assert LiveSumY(es) == LiveSumY(init) && LiveCount(es) == LiveCount(init);
      } else {
        assert 0 <= |es| - 1 && !es[|es| - 1].dead;
        SumStep(LiveSumY(init), LiveCount(init) as real, lo, hi, last.y);
        assert LiveSumY(es) == LiveSumY(init) + last.y;
        assert LiveCount(es) as real == LiveCount(init) as real + 1.0;
      }
    }
  }

  /** The point the captain steers for: the first live boss, else the
      centroid of the live enemies, else none. */
  function CaptainTarget(es: seq<EnemyData>): Option<(real, real)> {
    match FindLiveBoss(es)
    case Some(i) => Some((es[i].x, es[i].y))
    case None =>
      var n := LiveCount(es);
      if n > 0 then Some((LiveSumX(es) / n as real, LiveSumY(es) / n as real)) else None
  }

  /** The captain has no target exactly when no enemy is alive; a live boss
      is preferred to every other enemy. */
  lemma TargetChoice(es: seq<EnemyData>)
    ensures CaptainTarget(es).None? <==> forall i :: 0 <= i < |es| ==> es[i].dead
    ensures forall i :: 0 <= i < |es| && IsLiveBoss(es[i]) ==>
              exists j :: 0 <= j <= i && IsLiveBoss(es[j]) && CaptainTarget(es) == Some((es[j].x, es[j].y))
  {
    LiveCountZero(es);
    if FindLiveBoss(es).None? {
      assert forall i :: 0 <= i < |es| && es[i].kind == Boss ==> es[i].dead;
    }
  }

  /** The centroid of the live enemies lies in every box that holds all
      of them; without a live boss it is the captain's target. */
  lemma CentroidInBox(es: seq<EnemyData>, x0: real, x1: real, y0: real, y1: real)
    requires LiveCount(es) > 0
    requires forall i :: 0 <= i < |es| && !es[i].dead ==> x0 <= es[i].x <= x1 && y0 <= es[i].y <= y1
    ensures var n := LiveCount(es) as real;
            x0 <= LiveSumX(es) / n <= x1 && y0 <= LiveSumY(es) / n <= y1
    ensures FindLiveBoss(es).None? ==>
              CaptainTarget(es) == Some((LiveSumX(es) / LiveCount(es) as real, LiveSumY(es) / LiveCount(es) as real))
  {
    CentroidX(es, x0, x1);
    CentroidY(es, y0, y1);
  }

  lemma CentroidX(es: seq<EnemyData>, lo: real, hi: real)
    requires LiveCount(es) > 0
    requires forall i :: 0 <= i < |es| && !es[i].dead ==> lo <= es[i].x <= hi
    ensures lo <= LiveSumX(es) / LiveCount(es) as real <= hi
  {
    LiveSumXBounds(es, lo, hi);
    MeanBetween(LiveSumX(es), LiveCount(es) as real, lo, hi);
  }

  lemma CentroidY(es: seq<EnemyData>, lo: real, hi: real)
    requires LiveCount(es) > 0
    requires forall i :: 0 <= i < |es| && !es[i].dead ==> lo <= es[i].y <= hi
    ensures lo <= LiveSumY(es) / LiveCount(es) as real <= hi
  {
    LiveSumYBounds(es, lo, hi);
    MeanBetween(LiveSumY(es), LiveCount(es) as real, lo, hi);
  }

  lemma MeanBetween(s: real, n: real, lo: real, hi: real)
    requires n > 0.0 && lo * n <= s <= hi * n
    ensures lo <= s / n <= hi
  {
    var m := s / n;
    assert m * n == s;
    assert lo * n - m * n == (lo - m) * n;
    assert hi * n - m * n == (hi - m) * n;
  }

  /** Turning the target heading by half a turn moves its wrapped
      difference by exactly half a turn, back into (-pi, pi]. */
  lemma WrapHalfTurn(d: real)
    ensures Wrap(d + PI) == if Wrap(d) > 0.0 then Wrap(d) - PI else Wrap(d) + PI
  {
    var w := Wrap(d);
    var c := if w > 0.0 then w - PI else w + PI;
    if w > 0.0 {
      SameHeadingTurn(w, d);
      assert c - (d + PI) == (w - TAU) - d;
    } else {
      assert c - (d + PI) == w - d;
    }
    WrapUnique(d + PI, c);
  }

  /** The rotation step towards the target heading: the smaller of the bow
      difference (diff1) and the stern difference (diff2), diff2 on a tie. */
  function HelmTurn(rotation: real, angleToTarget: real): real {
    var diff1 := Wrap(angleToTarget - rotation);
    var diff2 := Wrap(angleToTarget + PI - rotation);
    if Abs(diff1) < Abs(diff2) then diff1 else diff2
  }

  /** The helm never turns more than a quarter turn: of the bow and stern
      headings one is always within pi/2.  The chosen difference has the
      smaller magnitude of the two, and on a tie it is the stern one. */
  lemma HelmQuarterTurn(rotation: real, angleToTarget: real)
    ensures var t := HelmTurn(rotation, angleToTarget);
            var diff1 := Wrap(angleToTarget - rotation);
            var diff2 := Wrap(angleToTarget + PI - rotation);
            && -PI / 2.0 <= t <= PI / 2.0
            && (t == diff1 || t == diff2)
            && Abs(t) <= Abs(diff1) && Abs(t) <= Abs(diff2)
            && (Abs(diff1) == Abs(diff2) ==> t == diff2)
  {
    var d := angleToTarget - rotation;
    WrapHalfTurn(d);
    assert angleToTarget + PI - rotation == d + PI;
  }

  /** `updateCaptain()` as a function of the ship and the captain's
      target. */
  function Helmed(ship: Ship, target: Option<(real, real)>, trig: Trig): (r: Ship)
    ensures r == ship.(rotation := r.rotation)
  {
    if !ship.hasCaptain || ship.sinking then ship
    else match target
      case None => ship
      case Some((tx, ty)) =>
        var a := trig.atan2(ty - ship.y, tx - ship.x);
        ship.(rotation := ship.rotation + HelmTurn(ship.rotation, a) * 0.015)
  }

  /** The helm leaves the rotation alone without a captain, while sinking
      and when every enemy is dead; otherwise it turns by at most
      0.015 * pi/2 per frame. */
  lemma HelmBounds(ship: Ship, es: seq<EnemyData>, trig: Trig)
    ensures !ship.hasCaptain || ship.sinking || (forall i :: 0 <= i < |es| ==> es[i].dead) ==>
              Helmed(ship, CaptainTarget(es), trig) == ship
    ensures Abs(Helmed(ship, CaptainTarget(es), trig).rotation - ship.rotation) <= 0.015 * (PI / 2.0)
  {
    TargetChoice(es);
    match CaptainTarget(es)
    case None =>
    case Some((tx, ty)) =>
      HelmQuarterTurn(ship.rotation, trig.atan2(ty - ship.y, tx - ship.x));
  }

  /** `updateCaptain()`: the target from the enemy list (the centroid sums
      accumulated in a loop), the two heading differences normalised by the
      `while` loops, the smaller one eased in with gain 0.015. */
  method UpdateCaptain(game: Game, trig: Trig)
    modifies game`ship
    ensures game.ship == Helmed(old(game.ship), CaptainTarget(old(EnemyModels(game.enemies))), trig)
  {
    var ship := game.ship;
    if !ship.hasCaptain || ship.sinking {
      return;
    }
    var target := ChooseTarget(EnemyModels(game.enemies));
    if target.None? {
      return;
    }
    var (targetX, targetY) := target.value;
    var angleToTarget := trig.atan2(targetY - ship.y, targetX - ship.x);
    var finalDiff := HeadingDiff(ship.rotation, angleToTarget);
    game.ship := ship.(rotation := ship.rotation + finalDiff * 0.015);
  }

  /** The target choice of `updateCaptain`: the `find` for a live boss,
      else the `forEach` that sums the live enemies' positions. */
  method ChooseTarget(es: seq<EnemyData>) returns (target: Option<(real, real)>)
    ensures target == CaptainTarget(es)
  {
    var boss := FindLiveBoss(es);
    if boss.Some? {
      return Some((es[boss.value].x, es[boss.value].y));
    }
    var sumX, sumY, count := 0.0, 0.0, 0;
    var k := 0;
    while k < |es|
      invariant 0 <= k <= |es|
      invariant sumX == LiveSumX(es[..k]) && sumY == LiveSumY(es[..k]) && count == LiveCount(es[..k])
    {
      assert es[..k + 1][..k] == es[..k];
      if !es[k].dead {
        sumX, sumY, count := sumX + es[k].x, sumY + es[k].y, count + 1;
      }
      k := k + 1;
    }
    assert es[..|es|] == es;
    if count > 0 {
      target := Some((sumX / count as real, sumY / count as real));
    } else {
      target := None;
    }
  }

  /** The bow and stern heading differences, each normalised by the two
      `while` loops, and the one with the smaller magnitude. */
  method HeadingDiff(current: real, angleToTarget: real) returns (finalDiff: real)
    ensures finalDiff == HelmTurn(current, angleToTarget)
  {
    var ideal1 := angleToTarget;
    var ideal2 := angleToTarget + PI;
    var diff1 := NormalizeAngle(ideal1 - current);
    var diff2 := NormalizeAngle(ideal2 - current);
    finalDiff := if Abs(diff1) < Abs(diff2) then diff1 else diff2;
  }
}
