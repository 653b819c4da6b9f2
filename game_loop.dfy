/** js/main.js: the state update of one animation frame, and the ship
    placement on resize.  Drawing and frame scheduling are not part of the
    model. */
module GameLoop {
  import opened Geometry
  import opened ShipRecord
  import opened Particles
  import opened Projectiles
  import opened Enemies
  import opened State
  import opened ShipControl

  /** `resize()`: the ship sits at the middle of the canvas width, 60% of
      the way down. */
  method Resize(game: Game, width: real, height: real)
    modifies game`ship
    ensures game.ship == old(game.ship).(x := width / 2.0, y := height * 0.6)
  {
    game.ship := game.ship.(x := width / 2.0);
    game.ship := game.ship.(y := height * 0.6);
  }

  lemma Associative<T>(a: seq<T>, b: seq<T>, c: seq<T>)
    ensures a + b + c == a + (b + c)
  {
  }

  lemma AppendPrefix<T>(a: seq<T>, b: seq<T>)
    ensures (a + b)[..|a|] == a
  {
  }

  /** The values of the enemies `es` are `ms`. */
  ghost predicate EnemiesAre(es: seq<Enemy>, ms: seq<EnemyData>)
    reads set e | e in es
  {
    EnemyModels(es) == ms
  }

  /** The values of the shots `ps` are `ms`. */
  ghost predicate ShotsAre(ps: seq<Projectile>, ms: seq<ProjectileData>)
    reads set p | p in ps
  {
    ProjectileModels(ps) == ms
  }

  /** The values of the splashes `ss` are `ms`. */
  ghost predicate SplashesAre(ss: seq<Splash>, ms: seq<SplashData>)
    reads set s | s in ss
  {
    SplashModels(ss) == ms
  }

  /** `xs` is `pre` with entries appended. */
  predicate Extends<T(==)>(xs: seq<T>, pre: seq<T>) {
    |pre| <= |xs| && xs[..|pre|] == pre
  }

  // ---------------------------------------------------------------------
  // The enemy pass: `enemies.forEach(e => e.update(ship, w, h))`.

  /** Every enemy after its update, in list order: the pass updates each
      enemy on its own, so entry i is enemy i updated. */
  function UpdatedAll(es: seq<EnemyData>, ship: Ship, w: real, h: real, trig: Trig): (r: seq<EnemyData>)
    ensures |r| == |es|
    ensures forall i {:trigger r[i]} :: 0 <= i < |es| ==> r[i] == Updated(es[i], ship, w, h, trig)
  {
    if es == [] then []
    else
      var init := es[..|es| - 1];
      assert forall i :: 0 <= i < |init| ==> init[i] == es[i];
      UpdatedAll(init, ship, w, h, trig) + [Updated(es[|es| - 1], ship, w, h, trig)]
  }

  lemma UpdatedAllStep(es: seq<EnemyData>, i: nat, ship: Ship, w: real, h: real, trig: Trig)
    requires i < |es|
    ensures UpdatedAll(es[..i + 1], ship, w, h, trig) == UpdatedAll(es[..i], ship, w, h, trig) + [Updated(es[i], ship, w, h, trig)]
  {
    assert es[..i + 1][..i] == es[..i];
  }

  /** The shots the pass fires, in list order. */
  function AllShots(es: seq<EnemyData>, ship: Ship, w: real, h: real, trig: Trig): (shots: seq<ProjectileData>)
    ensures |shots| <= |es|
    ensures forall j :: 0 <= j < |shots| ==> shots[j].isEnemy && shots[j].active
  {
    if es == [] then []
    else AllShots(es[..|es| - 1], ship, w, h, trig) + ShotsOf(es[|es| - 1], ship, w, h, trig)
  }

  lemma AllShotsStep(es: seq<EnemyData>, i: nat, ship: Ship, w: real, h: real, trig: Trig)
    requires i < |es|
    ensures AllShots(es[..i + 1], ship, w, h, trig) == AllShots(es[..i], ship, w, h, trig) + ShotsOf(es[i], ship, w, h, trig)
  {
    assert es[..i + 1][..i] == es[..i];
  }

  /** Nobody fires at a sinking ship, and a pass over rafts and serpents
      only fires nothing. */
  lemma {:induction false} AllShotsOnlyFromArmed(es: seq<EnemyData>, ship: Ship, w: real, h: real, trig: Trig)
    ensures ship.sinking ==> AllShots(es, ship, w, h, trig) == []
    ensures (forall i :: 0 <= i < |es| ==> !Armed(es[i].kind)) ==> AllShots(es, ship, w, h, trig) == []
  {
    if es != [] {
      var init := es[..|es| - 1];
      assert forall i :: 0 <= i < |init| ==> init[i] == es[i];
      AllShotsOnlyFromArmed(init, ship, w, h, trig);
    }
  }

  /** The pass has updated enemies 0..i-1 (`after`) and not yet touched the
      rest of `before`. */
  ghost predicate EnemiesUpTo(es: seq<Enemy>, before: seq<EnemyData>, i: nat, after: seq<EnemyData>,
                              ship: Ship, w: real, h: real, trig: Trig)
    reads set e | e in es
  {
    && i <= |es| == |before|
    && after == UpdatedAll(before[..i], ship, w, h, trig)
    && (forall j :: 0 <= j < i ==> es[j].Model() == after[j])
    && (forall j :: i <= j < |es| ==> es[j].Model() == before[j])
  }

  /** The shot objects made so far are the shots enemies 0..i-1 fire. */
  ghost predicate ShotsUpTo(before: seq<EnemyData>, i: nat, shots: seq<Projectile>, fired: seq<ProjectileData>,
                            ship: Ship, w: real, h: real, trig: Trig)
    reads set p | p in shots
  {
    && i <= |before|
    && fired == AllShots(before[..i], ship, w, h, trig)
    && |shots| == |fired|
    && (forall j :: 0 <= j < |shots| ==> shots[j].Model() == fired[j])
  }

  ghost predicate EnemyPass(es: seq<Enemy>, before: seq<EnemyData>, i: nat, after: seq<EnemyData>,
                            shots: seq<Projectile>, fired: seq<ProjectileData>,
                            ship: Ship, w: real, h: real, trig: Trig)
    reads set e | e in es, set p | p in shots
  {
    EnemiesUpTo(es, before, i, after, ship, w, h, trig) && ShotsUpTo(before, i, shots, fired, ship, w, h, trig)
  }

  /** One enemy's update; its shots are appended to
      GameState.enemyProjectiles, after the ones fired so far. */
  method UpdateEnemy(game: Game, ghost pre: seq<Projectile>, e: Enemy, w: real, h: real, trig: Trig,
                     ghost shots: seq<Projectile>, ghost fired: seq<ProjectileData>) returns (added: seq<Projectile>)
    requires game.enemyProjectiles == pre + shots
    requires |shots| == |fired| && forall j :: 0 <= j < |shots| ==> shots[j].Model() == fired[j]
    modifies game`enemyProjectiles, e
    ensures game.enemyProjectiles == pre + (shots + added)
    ensures e.Model() == Updated(old(e.Model()), game.ship, w, h, trig)
    ensures var fired' := fired + ShotsOf(old(e.Model()), game.ship, w, h, trig);
            && |shots + added| == |fired'|
            && forall j :: 0 <= j < |shots + added| ==> (shots + added)[j].Model() == fired'[j]
  {
    added := e.Update(game.ship, w, h, trig);
    game.enemyProjectiles := game.enemyProjectiles + added;
    Associative(pre, shots, added);
  }

  method EnemyStep(game: Game, ghost pre: seq<Projectile>, es: seq<Enemy>, i: nat, w: real, h: real, trig: Trig,
                   ghost before: seq<EnemyData>, ghost after: seq<EnemyData>,
                   ghost shots: seq<Projectile>, ghost fired: seq<ProjectileData>) returns (added: seq<Projectile>)
    requires Distinct(es) && i < |es|
    requires EnemyPass(es, before, i, after, shots, fired, game.ship, w, h, trig)
    requires game.enemyProjectiles == pre + shots
    modifies game`enemyProjectiles, es[i]
    ensures game.enemyProjectiles == pre + (shots + added)
    ensures EnemyPass(es, before, i + 1, after + [es[i].Model()], shots + added,
                      fired + ShotsOf(before[i], game.ship, w, h, trig), game.ship, w, h, trig)
  {
    DistinctOthers(es, i);
    UpdatedAllStep(before, i, game.ship, w, h, trig);
    AllShotsStep(before, i, game.ship, w, h, trig);
    added := UpdateEnemy(game, pre, es[i], w, h, trig, shots, fired);
  }

  lemma EnemyPassDone(es: seq<Enemy>, before: seq<EnemyData>, after: seq<EnemyData>,
                      shots: seq<Projectile>, fired: seq<ProjectileData>, ship: Ship, w: real, h: real, trig: Trig)
    requires EnemyPass(es, before, |es|, after, shots, fired, ship, w, h, trig)
    ensures EnemyModels(es) == UpdatedAll(before, ship, w, h, trig)
    ensures ProjectileModels(shots) == AllShots(before, ship, w, h, trig)
  {
    assert before[..|es|] == before;
  }

  /** The loop of the enemy pass. */
  method RunEnemyPass(game: Game, es: seq<Enemy>, w: real, h: real, trig: Trig, ghost before: seq<EnemyData>)
    returns (ghost after: seq<EnemyData>, ghost shots: seq<Projectile>, ghost fired: seq<ProjectileData>)
    requires Distinct(es)
    requires EnemyPass(es, before, 0, [], [], [], game.ship, w, h, trig)
    modifies game`enemyProjectiles, set e | e in es
    ensures EnemyPass(es, before, |es|, after, shots, fired, game.ship, w, h, trig)
    ensures game.enemyProjectiles == old(game.enemyProjectiles) + shots
  {
    after, shots, fired := [], [], [];
    var i := 0;
    while i < |es|
      invariant i <= |es|
      invariant EnemyPass(es, before, i, after, shots, fired, game.ship, w, h, trig)
      invariant game.enemyProjectiles == old(game.enemyProjectiles) + shots
    {
      var added := EnemyStep(game, old(game.enemyProjectiles), es, i, w, h, trig, before, after, shots, fired);
      after := after + [es[i].Model()];
      shots := shots + added;
      fired := fired + ShotsOf(before[i], game.ship, w, h, trig);
      i := i + 1;
    }
  }

  /** The enemy pass, with the shots it appends. */
  method RunEnemies(game: Game, w: real, h: real, trig: Trig) returns (ghost shots: seq<Projectile>)
    requires Distinct(game.enemies)
    modifies game`enemyProjectiles, set e | e in game.enemies
    ensures EnemiesAre(game.enemies, UpdatedAll(old(EnemyModels(game.enemies)), game.ship, w, h, trig))
    ensures game.enemyProjectiles == old(game.enemyProjectiles) + shots
    ensures ShotsAre(shots, AllShots(old(EnemyModels(game.enemies)), game.ship, w, h, trig))
  {
    ghost var before := EnemyModels(game.enemies);
    assert before[..0] == [];
    ghost var after, fired;
    after, shots, fired := RunEnemyPass(game, game.enemies, w, h, trig, before);
    EnemyPassDone(game.enemies, before, after, shots, fired, game.ship, w, h, trig);
  }

  /** The enemy pass with its shots appended to GameState.enemyProjectiles. */
  method EnemiesAndShots(game: Game, w: real, h: real, trig: Trig)
    requires Distinct(game.enemies)
    modifies game`enemyProjectiles, set e | e in game.enemies
    ensures EnemiesAre(game.enemies, UpdatedAll(old(EnemyModels(game.enemies)), game.ship, w, h, trig))
    ensures Extends(game.enemyProjectiles, old(game.enemyProjectiles))
    ensures ShotsAre(game.enemyProjectiles, old(ProjectileModels(game.enemyProjectiles)) + AllShots(old(EnemyModels(game.enemies)), game.ship, w, h, trig))
  {
    ghost var list0, m0 := game.enemyProjectiles, ProjectileModels(game.enemyProjectiles);
    ghost var shots := RunEnemies(game, w, h, trig);
    AppendPrefix(list0, shots);
    assert ProjectileModels(list0) == m0;
    ProjectileModelsAppend(list0, shots);
  }

  /** EnemiesAndShots, which leaves the flags, the ship and the particles alone. */
  method EnemyPassKeepsScalars(game: Game, w: real, h: real, trig: Trig)
    requires Distinct(game.enemies)
    modifies game`enemyProjectiles, set e | e in game.enemies
    ensures EnemiesAre(game.enemies, UpdatedAll(old(EnemyModels(game.enemies)), game.ship, w, h, trig))
    ensures Extends(game.enemyProjectiles, old(game.enemyProjectiles))
    ensures ShotsAre(game.enemyProjectiles, old(ProjectileModels(game.enemyProjectiles)) + AllShots(old(EnemyModels(game.enemies)), game.ship, w, h, trig))
    ensures game.Scalars() == old(game.Scalars()) && game.ship == old(game.ship) && game.particles == old(game.particles)
  {
    ghost var c, ship, ps := game.Scalars(), game.ship, game.particles;
    EnemiesAndShots(game, w, h, trig);
    assert game.Scalars() == c && game.ship == ship && game.particles == ps;
  }

  /** EnemyPassKeepsScalars, which leaves the friendly shots alone. */
  method EnemyPassKeepsFriendly(game: Game, w: real, h: real, trig: Trig)
    requires Distinct(game.enemies)
    modifies game`enemyProjectiles, set e | e in game.enemies
    ensures EnemiesAre(game.enemies, UpdatedAll(old(EnemyModels(game.enemies)), game.ship, w, h, trig))
    ensures Extends(game.enemyProjectiles, old(game.enemyProjectiles))
    ensures ShotsAre(game.enemyProjectiles, old(ProjectileModels(game.enemyProjectiles)) + AllShots(old(EnemyModels(game.enemies)), game.ship, w, h, trig))
    ensures game.Scalars() == old(game.Scalars()) && game.ship == old(game.ship) && game.particles == old(game.particles)
    ensures ShotsAre(game.projectiles, old(ProjectileModels(game.projectiles)))
  {
    ghost var ps := game.projectiles;
    EnemyPassKeepsScalars(game, w, h, trig);
    assert game.projectiles == ps;
    assert forall k | 0 <= k < |ps| :: ps[k].Model() == old(ps[k].Model());
  }

  /** The enemy pass (js/main.js:25).  Each enemy's shots are appended to
      GameState.enemyProjectiles as it fires them; the friendly shots and
      the splashes are not touched. */
  method UpdateEnemies(game: Game, w: real, h: real, trig: Trig)
    requires Distinct(game.enemies)
    modifies game`enemyProjectiles, set e | e in game.enemies
    ensures EnemiesAre(game.enemies, UpdatedAll(old(EnemyModels(game.enemies)), game.ship, w, h, trig))
    ensures Extends(game.enemyProjectiles, old(game.enemyProjectiles))
    ensures ShotsAre(game.enemyProjectiles, old(ProjectileModels(game.enemyProjectiles)) + AllShots(old(EnemyModels(game.enemies)), game.ship, w, h, trig))
    ensures game.Scalars() == old(game.Scalars()) && game.ship == old(game.ship) && game.particles == old(game.particles)
    ensures ShotsAre(game.projectiles, old(ProjectileModels(game.projectiles)))
    ensures SplashesAre(game.splashes, old(SplashModels(game.splashes)))
  {
    ghost var ss := game.splashes;
    EnemyPassKeepsFriendly(game, w, h, trig);
    assert game.splashes == ss;
    assert forall k | 0 <= k < |ss| :: ss[k].Model() == old(ss[k].Model());
  }

  // ---------------------------------------------------------------------
  // The projectile pass: `projectiles.forEach(p => p.update())`.

  /** Every shot after its update on `frame`, in list order: the pass
      updates each shot on its own, so entry i is shot i advanced. */
  function AdvanceAll(ps: seq<ProjectileData>, frame: nat): (r: seq<ProjectileData>)
    ensures |r| == |ps|
    ensures forall i {:trigger r[i]} :: 0 <= i < |ps| ==> r[i] == Advance(ps[i], frame)
  {
    if ps == [] then []
    else
      var init := ps[..|ps| - 1];
      assert forall i :: 0 <= i < |init| ==> init[i] == ps[i];
      AdvanceAll(init, frame) + [Advance(ps[|ps| - 1], frame)]
  }

  lemma AdvanceAllStep(ps: seq<ProjectileData>, i: nat, frame: nat)
    requires i < |ps|
    ensures AdvanceAll(ps[..i + 1], frame) == AdvanceAll(ps[..i], frame) + [Advance(ps[i], frame)]
  {
    assert ps[..i + 1][..i] == ps[..i];
  }

  /** The splash one update makes: where a friendly shot lands, one step on
      from where it was. */
  function SplashOf(p: ProjectileData): (made: seq<SplashData>)
    ensures |made| <= 1
  {
    if Impacts(p) && !p.isEnemy then [SplashAt(p.x + p.vx, p.y + p.vy)] else []
  }

  /** The splashes the pass makes, in list order. */
  function AllSplashes(ps: seq<ProjectileData>): (splashes: seq<SplashData>)
    ensures |splashes| <= |ps|
  {
    if ps == [] then []
    else AllSplashes(ps[..|ps| - 1]) + SplashOf(ps[|ps| - 1])
  }

  lemma AllSplashesStep(ps: seq<ProjectileData>, i: nat)
    requires i < |ps|
    ensures AllSplashes(ps[..i + 1]) == AllSplashes(ps[..i]) + SplashOf(ps[i])
  {
    assert ps[..i + 1][..i] == ps[..i];
  }

  /** One splash per landing friendly shot: none when no shot lands, one
      for every shot when all of them land. */
  lemma {:induction false} SplashesCountLandings(ps: seq<ProjectileData>)
    ensures (forall i :: 0 <= i < |ps| ==> !Impacts(ps[i])) ==> AllSplashes(ps) == []
    ensures (forall i :: 0 <= i < |ps| ==> Impacts(ps[i]) && !ps[i].isEnemy) ==> |AllSplashes(ps)| == |ps|
  {
    if ps != [] {
      var init := ps[..|ps| - 1];
      assert forall i :: 0 <= i < |init| ==> init[i] == ps[i];
      SplashesCountLandings(init);
    }
  }

  /** The pass has updated shots 0..i-1 (`after`) and not yet touched the
      rest of `before`. */
  ghost predicate ShotsAdvancedUpTo(ps: seq<Projectile>, before: seq<ProjectileData>, i: nat,
                                    after: seq<ProjectileData>, frame: nat)
    reads set p | p in ps
  {
    && i <= |ps| == |before|
    && after == AdvanceAll(before[..i], frame)
    && (forall j :: 0 <= j < i ==> ps[j].Model() == after[j])
    && (forall j :: i <= j < |ps| ==> ps[j].Model() == before[j])
  }

  /** The splash objects made so far are the splashes of shots 0..i-1. */
  ghost predicate SplashesUpTo(before: seq<ProjectileData>, i: nat, objs: seq<Splash>, made: seq<SplashData>)
    reads set s | s in objs
  {
    && i <= |before|
    && made == AllSplashes(before[..i])
    && |objs| == |made|
    && (forall j :: 0 <= j < |objs| ==> objs[j].Model() == made[j])
  }

  ghost predicate ProjectilePass(ps: seq<Projectile>, before: seq<ProjectileData>, i: nat, after: seq<ProjectileData>,
                                 objs: seq<Splash>, made: seq<SplashData>, frame: nat)
    reads set p | p in ps, set s | s in objs
  {
    ShotsAdvancedUpTo(ps, before, i, after, frame) && SplashesUpTo(before, i, objs, made)
  }

  /** One friendly shot's update; its splash extends the ones made so far.
      A friendly shot makes no spark, so the spark draws are 0. */
  method UpdateProjectile(game: Game, ghost pre: seq<Splash>, p: Projectile, frame: nat,
                          ghost objs: seq<Splash>, ghost made: seq<SplashData>) returns (added: seq<Splash>)
    requires !p.isEnemy
    requires game.splashes == pre + objs
    requires |objs| == |made| && forall j :: 0 <= j < |objs| ==> objs[j].Model() == made[j]
    modifies game`splashes, p
    ensures game.splashes == pre + (objs + added)
    ensures p.Model() == Advance(old(p.Model()), frame)
    ensures var made' := made + SplashOf(old(p.Model()));
            && |objs + added| == |made'|
            && forall j :: 0 <= j < |objs + added| ==> (objs + added)[j].Model() == made'[j]
  {
    var sparks;
    added, sparks := p.Update(frame, 0.0, 0.0, 0.0);
    game.splashes := game.splashes + added;
    Associative(pre, objs, added);
  }

  method ProjectileStep(game: Game, ghost pre: seq<Splash>, ps: seq<Projectile>, i: nat, frame: nat,
                        ghost before: seq<ProjectileData>, ghost after: seq<ProjectileData>,
                        ghost objs: seq<Splash>, ghost made: seq<SplashData>) returns (added: seq<Splash>)
    requires Distinct(ps) && i < |ps| && !ps[i].isEnemy
    requires ProjectilePass(ps, before, i, after, objs, made, frame)
    requires game.splashes == pre + objs
    modifies game`splashes, ps[i]
    ensures game.splashes == pre + (objs + added)
    ensures ProjectilePass(ps, before, i + 1, after + [ps[i].Model()], objs + added,
                           made + SplashOf(before[i]), frame)
  {
    DistinctOthers(ps, i);
    AllSplashesStep(before, i);
    AdvanceAllStep(before, i, frame);
    added := UpdateProjectile(game, pre, ps[i], frame, objs, made);
  }

  lemma ProjectilePassDone(ps: seq<Projectile>, before: seq<ProjectileData>, after: seq<ProjectileData>,
                           objs: seq<Splash>, made: seq<SplashData>, frame: nat)
    requires ProjectilePass(ps, before, |ps|, after, objs, made, frame)
    ensures ProjectileModels(ps) == AdvanceAll(before, frame)
    ensures SplashModels(objs) == AllSplashes(before)
  {
    assert before[..|ps|] == before;
  }

  /** The loop of the projectile pass. */
  method RunProjectilePass(game: Game, ps: seq<Projectile>, frame: nat, ghost before: seq<ProjectileData>)
    returns (ghost after: seq<ProjectileData>, ghost objs: seq<Splash>, ghost made: seq<SplashData>)
    requires Distinct(ps)
    requires forall i :: 0 <= i < |ps| ==> !ps[i].isEnemy
    requires ProjectilePass(ps, before, 0, [], [], [], frame)
    modifies game`splashes, set p | p in ps
    ensures ProjectilePass(ps, before, |ps|, after, objs, made, frame)
    ensures game.splashes == old(game.splashes) + objs
  {
    after, objs, made := [], [], [];
    var i := 0;
    while i < |ps|
      invariant i <= |ps|
      invariant ProjectilePass(ps, before, i, after, objs, made, frame)
      invariant game.splashes == old(game.splashes) + objs
    {
      var added := ProjectileStep(game, old(game.splashes), ps, i, frame, before, after, objs, made);
      after := after + [ps[i].Model()];
      objs := objs + added;
      made := made + SplashOf(before[i]);
      i := i + 1;
    }
  }

  /** The projectile pass on the friendly shots, with what it appends. */
  method AdvanceProjectiles(game: Game, frame: nat) returns (ghost objs: seq<Splash>)
    requires Distinct(game.projectiles)
    requires forall i :: 0 <= i < |game.projectiles| ==> !game.projectiles[i].isEnemy
    modifies game`splashes, set p | p in game.projectiles
    ensures ShotsAre(game.projectiles, AdvanceAll(old(ProjectileModels(game.projectiles)), frame))
    ensures game.splashes == old(game.splashes) + objs
    ensures SplashesAre(objs, AllSplashes(old(ProjectileModels(game.projectiles))))
  {
    ghost var before := ProjectileModels(game.projectiles);
    assert before[..0] == [];
    ghost var after, made;
    after, objs, made := RunProjectilePass(game, game.projectiles, frame, before);
    ProjectilePassDone(game.projectiles, before, after, objs, made, frame);
  }

  /** The projectile pass with its splashes appended to GameState.splashes. */
  method ProjectilesAndSplashes(game: Game, frame: nat)
    requires Distinct(game.projectiles)
    requires forall i :: 0 <= i < |game.projectiles| ==> !game.projectiles[i].isEnemy
    modifies game`splashes, set p | p in game.projectiles
    ensures ShotsAre(game.projectiles, AdvanceAll(old(ProjectileModels(game.projectiles)), frame))
    ensures Extends(game.splashes, old(game.splashes))
    ensures SplashesAre(game.splashes, old(SplashModels(game.splashes)) + AllSplashes(old(ProjectileModels(game.projectiles))))
  {
    ghost var list0, m0 := game.splashes, SplashModels(game.splashes);
    ghost var objs := AdvanceProjectiles(game, frame);
    AppendPrefix(list0, objs);
    assert SplashModels(list0) == m0;
    SplashModelsAppend(list0, objs);
  }

  method PassKeepsScalars(game: Game, frame: nat)
    requires Distinct(game.projectiles)
    requires forall i :: 0 <= i < |game.projectiles| ==> !game.projectiles[i].isEnemy
    modifies game`splashes, set p | p in game.projectiles
    ensures ShotsAre(game.projectiles, AdvanceAll(old(ProjectileModels(game.projectiles)), frame))
    ensures Extends(game.splashes, old(game.splashes))
    ensures SplashesAre(game.splashes, old(SplashModels(game.splashes)) + AllSplashes(old(ProjectileModels(game.projectiles))))
    ensures game.Scalars() == old(game.Scalars()) && game.ship == old(game.ship) && game.particles == old(game.particles)
  {
    ghost var c, ship, ps := game.Scalars(), game.ship, game.particles;
    ProjectilesAndSplashes(game, frame);
    assert game.Scalars() == c && game.ship == ship && game.particles == ps;
  }

  method PassKeepsEnemies(game: Game, frame: nat)
    requires Distinct(game.projectiles)
    requires forall i :: 0 <= i < |game.projectiles| ==> !game.projectiles[i].isEnemy
    modifies game`splashes, set p | p in game.projectiles
    ensures ShotsAre(game.projectiles, AdvanceAll(old(ProjectileModels(game.projectiles)), frame))
    ensures Extends(game.splashes, old(game.splashes))
    ensures SplashesAre(game.splashes, old(SplashModels(game.splashes)) + AllSplashes(old(ProjectileModels(game.projectiles))))
    ensures game.Scalars() == old(game.Scalars()) && game.ship == old(game.ship) && game.particles == old(game.particles)
    ensures EnemiesAre(game.enemies, old(EnemyModels(game.enemies)))
  {
    ghost var es := game.enemies;
    PassKeepsScalars(game, frame);
    assert game.enemies == es;
    assert forall k | 0 <= k < |es| :: es[k].Model() == old(es[k].Model());
  }

  method UpdateProjectiles(game: Game, frame: nat)
    requires Distinct(game.projectiles)
    requires forall i :: 0 <= i < |game.projectiles| ==> !game.projectiles[i].isEnemy
    requires forall j :: 0 <= j < |game.enemyProjectiles| ==> game.enemyProjectiles[j].isEnemy
    modifies game`splashes, set p | p in game.projectiles
    ensures ShotsAre(game.projectiles, AdvanceAll(old(ProjectileModels(game.projectiles)), frame))
    ensures Extends(game.splashes, old(game.splashes))
    ensures SplashesAre(game.splashes, old(SplashModels(game.splashes)) + AllSplashes(old(ProjectileModels(game.projectiles))))
    ensures game.Scalars() == old(game.Scalars()) && game.ship == old(game.ship) && game.particles == old(game.particles)
    ensures EnemiesAre(game.enemies, old(EnemyModels(game.enemies)))
    ensures ShotsAre(game.enemyProjectiles, old(ProjectileModels(game.enemyProjectiles)))
  {
    ghost var qs := game.enemyProjectiles;
    PassKeepsEnemies(game, frame);
    assert game.enemyProjectiles == qs;
    assert forall k | 0 <= k < |qs| :: qs[k].Model() == old(qs[k].Model());
  }

  // ---------------------------------------------------------------------
  // `enemies = enemies.filter(e => !e.dead)`.

  function KeepLive(es: seq<Enemy>): (r: seq<Enemy>)
    reads set e | e in es
    ensures |r| <= |es|
    ensures forall i :: 0 <= i < |r| ==> r[i] in es && !r[i].dead
    ensures forall i :: 0 <= i < |es| && !es[i].dead ==> es[i] in r
  {
    if es == [] then []
    else KeepLive(es[..|es| - 1]) + (if es[|es| - 1].dead then [] else [es[|es| - 1]])
  }

  /** The filter keeps the list order: filtering a concatenation is
      concatenating the filtered parts. */
  lemma {:induction false} KeepLiveAppend(a: seq<Enemy>, b: seq<Enemy>)
    ensures KeepLive(a + b) == KeepLive(a) + KeepLive(b)
    decreases |b|
  {
    if b == [] {
      assert a + b == a;
    } else {
      var b0 := b[..|b| - 1];
      assert (a + b)[..|a + b| - 1] == a + b0;
      KeepLiveAppend(a, b0);
    }
  }

  /** The filter keeps every enemy once at most. */
  lemma {:induction false} KeepLiveDistinct(es: seq<Enemy>)
    requires Distinct(es)
    ensures Distinct(KeepLive(es))
  {
    if es != [] {
      var init := es[..|es| - 1];
      DistinctInit(es);
      KeepLiveDistinct(init);
      var last := es[|es| - 1];
      assert KeepLive(es) == KeepLive(init) + (if last.dead then [] else [last]);
      if !last.dead {
        assert last !in KeepLive(init);
        DistinctSnoc(KeepLive(init), last);
      } else {
        assert KeepLive(es) == KeepLive(init);
      }
    }
  }

  method PruneEnemies(game: Game)
    requires Distinct(game.enemies)
    modifies game`enemies
    ensures game.enemies == KeepLive(old(game.enemies))
    ensures Distinct(game.enemies)
    ensures EnemiesAre(old(game.enemies), old(EnemyModels(game.enemies)))
    ensures ShotsAre(game.projectiles, old(ProjectileModels(game.projectiles)))
    ensures ShotsAre(game.enemyProjectiles, old(ProjectileModels(game.enemyProjectiles)))
    ensures SplashesAre(game.splashes, old(SplashModels(game.splashes)))
    ensures game.Scalars() == old(game.Scalars()) && game.ship == old(game.ship) && game.particles == old(game.particles)
  {
    KeepLiveDistinct(game.enemies);
    game.enemies := KeepLive(game.enemies);
  }

  // ---------------------------------------------------------------------

  /** `GameState.frameCount++`. */
  method NextFrame(game: Game)
    modifies game`frameCount
    ensures game.Scalars() == old(game.Scalars()).(frameCount := old(game.frameCount) + 1)
    ensures game.ship == old(game.ship) && game.particles == old(game.particles)
    ensures EnemiesAre(game.enemies, old(EnemyModels(game.enemies)))
    ensures ShotsAre(game.projectiles, old(ProjectileModels(game.projectiles)))
    ensures ShotsAre(game.enemyProjectiles, old(ProjectileModels(game.enemyProjectiles)))
    ensures SplashesAre(game.splashes, old(SplashModels(game.splashes)))
  {
    game.frameCount := game.frameCount + 1;
  }

  /** The new enemy shots are enemy shots. */
  lemma ShotsAreHostile(qs: seq<Projectile>, m0: seq<ProjectileData>, fired: seq<ProjectileData>)
    requires ProjectileModels(qs) == m0 + fired
    requires forall j :: 0 <= j < |m0| ==> m0[j].isEnemy
    requires forall j :: 0 <= j < |fired| ==> fired[j].isEnemy
    ensures forall j :: 0 <= j < |qs| ==> qs[j].isEnemy
  {
    forall j | 0 <= j < |qs|
      ensures qs[j].isEnemy
    {
      assert ProjectileModels(qs)[j] == qs[j].Model();
    }
  }

  /** js/main.js:26-28: the projectile pass on frame `frame`, then the
      filter. */
  method Settle(game: Game, frame: nat)
    requires game.Valid()
    modifies game`splashes, game`enemies, set p | p in game.projectiles
    ensures game.Valid()
    ensures game.Scalars() == old(game.Scalars()) && game.ship == old(game.ship) && game.particles == old(game.particles)
    ensures game.enemies == KeepLive(old(game.enemies))
    ensures EnemiesAre(old(game.enemies), old(EnemyModels(game.enemies)))
    ensures game.projectiles == old(game.projectiles)
    ensures ShotsAre(game.projectiles, AdvanceAll(old(ProjectileModels(game.projectiles)), frame))
    ensures game.enemyProjectiles == old(game.enemyProjectiles)
    ensures ShotsAre(game.enemyProjectiles, old(ProjectileModels(game.enemyProjectiles)))
    ensures Extends(game.splashes, old(game.splashes))
    ensures SplashesAre(game.splashes, old(SplashModels(game.splashes)) + AllSplashes(old(ProjectileModels(game.projectiles))))
  {
    UpdateProjectiles(game, frame);
    PruneEnemies(game);
  }

  /** js/main.js:25-28: the enemy pass against the current ship, then the
      projectile pass on frame `frame` and the filter. */
  method Fight(game: Game, w: real, h: real, trig: Trig, frame: nat)
    requires game.Valid()
    modifies game`enemyProjectiles, game`splashes, game`enemies
    modifies set e | e in game.enemies, set p | p in game.projectiles
    ensures game.Valid()
    ensures game.Scalars() == old(game.Scalars()) && game.ship == old(game.ship) && game.particles == old(game.particles)
    ensures game.enemies == KeepLive(old(game.enemies))
    ensures EnemiesAre(old(game.enemies), UpdatedAll(old(EnemyModels(game.enemies)), game.ship, w, h, trig))
    ensures game.projectiles == old(game.projectiles)
    ensures ShotsAre(game.projectiles, AdvanceAll(old(ProjectileModels(game.projectiles)), frame))
    ensures Extends(game.enemyProjectiles, old(game.enemyProjectiles))
    ensures ShotsAre(game.enemyProjectiles, old(ProjectileModels(game.enemyProjectiles)) + AllShots(old(EnemyModels(game.enemies)), game.ship, w, h, trig))
    ensures Extends(game.splashes, old(game.splashes))
    ensures SplashesAre(game.splashes, old(SplashModels(game.splashes)) + AllSplashes(old(ProjectileModels(game.projectiles))))
  {
    ghost var hostile := ProjectileModels(game.enemyProjectiles);
    UpdateEnemies(game, w, h, trig);
    ShotsAreHostile(game.enemyProjectiles, hostile, AllShots(old(EnemyModels(game.enemies)), game.ship, w, h, trig));
    Settle(game, frame);
  }

  /** `updateCaptain()` (js/main.js:23), which leaves the enemies alone. */
  method SteerKeepsEnemies(game: Game, trig: Trig)
    modifies game`ship
    ensures game.ship == Helmed(old(game.ship), CaptainTarget(old(EnemyModels(game.enemies))), trig)
    ensures game.Scalars() == old(game.Scalars()) && game.particles == old(game.particles)
    ensures EnemiesAre(game.enemies, old(EnemyModels(game.enemies)))
  {
    UpdateCaptain(game, trig);
  }

  /** SteerKeepsEnemies, which leaves the friendly shots alone. */
  method SteerKeepsShots(game: Game, trig: Trig)
    modifies game`ship
    ensures game.ship == Helmed(old(game.ship), CaptainTarget(old(EnemyModels(game.enemies))), trig)
    ensures game.Scalars() == old(game.Scalars()) && game.particles == old(game.particles)
    ensures EnemiesAre(game.enemies, old(EnemyModels(game.enemies)))
    ensures ShotsAre(game.projectiles, old(ProjectileModels(game.projectiles)))
  {
    SteerKeepsEnemies(game, trig);
  }

  /** SteerKeepsShots, which leaves the enemy shots alone. */
  method SteerKeepsHostile(game: Game, trig: Trig)
    modifies game`ship
    ensures game.ship == Helmed(old(game.ship), CaptainTarget(old(EnemyModels(game.enemies))), trig)
    ensures game.Scalars() == old(game.Scalars()) && game.particles == old(game.particles)
    ensures EnemiesAre(game.enemies, old(EnemyModels(game.enemies)))
    ensures ShotsAre(game.projectiles, old(ProjectileModels(game.projectiles)))
    ensures ShotsAre(game.enemyProjectiles, old(ProjectileModels(game.enemyProjectiles)))
  {
    SteerKeepsShots(game, trig);
  }

  /** `updateCaptain()` (js/main.js:23), which touches only the ship. */
  method Steer(game: Game, trig: Trig)
    modifies game`ship
    ensures game.ship == Helmed(old(game.ship), CaptainTarget(old(EnemyModels(game.enemies))), trig)
    ensures game.Scalars() == old(game.Scalars()) && game.particles == old(game.particles)
    ensures EnemiesAre(game.enemies, old(EnemyModels(game.enemies)))
    ensures ShotsAre(game.projectiles, old(ProjectileModels(game.projectiles)))
    ensures ShotsAre(game.enemyProjectiles, old(ProjectileModels(game.enemyProjectiles)))
    ensures SplashesAre(game.splashes, old(SplashModels(game.splashes)))
  {
    SteerKeepsHostile(game, trig);
  }

  /** js/main.js:23-28: the captain steers, then the passes and the filter. */
  method Play(game: Game, w: real, h: real, trig: Trig, frame: nat)
    requires game.Valid()
    modifies game`ship, game`enemyProjectiles, game`splashes, game`enemies
    modifies set e | e in game.enemies, set p | p in game.projectiles
    ensures game.Valid()
    ensures game.Scalars() == old(game.Scalars()) && game.particles == old(game.particles)
    ensures game.ship == Helmed(old(game.ship), CaptainTarget(old(EnemyModels(game.enemies))), trig)
    ensures game.enemies == KeepLive(old(game.enemies))
    ensures EnemiesAre(old(game.enemies), UpdatedAll(old(EnemyModels(game.enemies)), game.ship, w, h, trig))
    ensures game.projectiles == old(game.projectiles)
    ensures ShotsAre(game.projectiles, AdvanceAll(old(ProjectileModels(game.projectiles)), frame))
    ensures Extends(game.enemyProjectiles, old(game.enemyProjectiles))
    ensures ShotsAre(game.enemyProjectiles, old(ProjectileModels(game.enemyProjectiles)) + AllShots(old(EnemyModels(game.enemies)), game.ship, w, h, trig))
    ensures Extends(game.splashes, old(game.splashes))
    ensures SplashesAre(game.splashes, old(SplashModels(game.splashes)) + AllSplashes(old(ProjectileModels(game.projectiles))))
  {
    Steer(game, trig);
    Fight(game, w, h, trig, frame);
  }

  /** The running branch of `gameLoop()`'s state update. */
  method Step(game: Game, w: real, h: real, trig: Trig)
    requires game.Valid() && game.gameActive && !game.isPaused
    modifies game`frameCount, game`ship, game`enemyProjectiles, game`splashes, game`enemies
    modifies set e | e in game.enemies, set p | p in game.projectiles
    ensures game.Valid()
    ensures game.Scalars() == old(game.Scalars()).(frameCount := old(game.frameCount) + 1)
    ensures game.ship == Helmed(old(game.ship), CaptainTarget(old(EnemyModels(game.enemies))), trig)
    ensures game.enemies == KeepLive(old(game.enemies))
    ensures EnemiesAre(old(game.enemies), UpdatedAll(old(EnemyModels(game.enemies)), game.ship, w, h, trig))
    ensures game.projectiles == old(game.projectiles)
    ensures ShotsAre(game.projectiles, AdvanceAll(old(ProjectileModels(game.projectiles)), game.frameCount))
    ensures game.particles == old(game.particles)
    ensures Extends(game.enemyProjectiles, old(game.enemyProjectiles))
    ensures ShotsAre(game.enemyProjectiles, old(ProjectileModels(game.enemyProjectiles)) + AllShots(old(EnemyModels(game.enemies)), game.ship, w, h, trig))
    ensures Extends(game.splashes, old(game.splashes))
    ensures SplashesAre(game.splashes, old(SplashModels(game.splashes)) + AllSplashes(old(ProjectileModels(game.projectiles))))
  {
    NextFrame(game);
    Play(game, w, h, trig, game.frameCount);
  }

  /** The state update of `gameLoop()` on a canvas of size w x h.  Nothing
      changes unless the game is running and not paused; then the frame
      counter rises by one, the captain steers, every enemy updates against
      the steered ship (its shots appended to enemyProjectiles), every
      friendly shot updates on the new frame number (its splashes
      appended), and the dead enemies are dropped, keeping the order of
      the rest.  The friendly shots stay in their list, and enemy shots and
      particles are not touched. */
  method Tick(game: Game, w: real, h: real, trig: Trig)
    requires game.Valid()
    modifies game`frameCount, game`ship, game`enemyProjectiles, game`splashes, game`enemies
    modifies set e | e in game.enemies, set p | p in game.projectiles
    ensures game.Valid()
    ensures game.isDraggingAmmo == old(game.isDraggingAmmo)
    ensures game.dragStartPos == old(game.dragStartPos) && game.dragCurrentPos == old(game.dragCurrentPos)
    ensures !(old(game.gameActive) && !old(game.isPaused)) ==>
              && game.Scalars() == old(game.Scalars()) && game.ship == old(game.ship)
              && game.enemies == old(game.enemies) && game.projectiles == old(game.projectiles)
              && game.enemyProjectiles == old(game.enemyProjectiles) && game.splashes == old(game.splashes)
              && game.particles == old(game.particles)
              && unchanged(set e | e in old(game.enemies)) && unchanged(set p | p in old(game.projectiles))
    ensures old(game.gameActive) && !old(game.isPaused) ==>
              && game.Scalars() == old(game.Scalars()).(frameCount := old(game.frameCount) + 1)
              && game.ship == Helmed(old(game.ship), CaptainTarget(old(EnemyModels(game.enemies))), trig)
              && game.enemies == KeepLive(old(game.enemies))
              && EnemiesAre(old(game.enemies), UpdatedAll(old(EnemyModels(game.enemies)), game.ship, w, h, trig))
              && game.projectiles == old(game.projectiles)
              && ShotsAre(game.projectiles, AdvanceAll(old(ProjectileModels(game.projectiles)), game.frameCount))
              && game.particles == old(game.particles)
    ensures old(game.gameActive) && !old(game.isPaused) ==>
              && Extends(game.enemyProjectiles, old(game.enemyProjectiles))
              && ShotsAre(game.enemyProjectiles, old(ProjectileModels(game.enemyProjectiles)) + AllShots(old(EnemyModels(game.enemies)), game.ship, w, h, trig))
    ensures old(game.gameActive) && !old(game.isPaused) ==>
              && Extends(game.splashes, old(game.splashes))
              && SplashesAre(game.splashes, old(SplashModels(game.splashes)) + AllSplashes(old(ProjectileModels(game.projectiles))))
  {
    if game.gameActive && !game.isPaused {
      Step(game, w, h, trig);
    }
  }
}
