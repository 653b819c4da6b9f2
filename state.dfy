/** js/state.js: GameState, the game's one mutable state object, and its
    `reset`.  The ship is a record field that the operations overwrite; the
    five entity lists hold the entity objects themselves. */
module State {
  import opened ShipRecord
  import opened Particles
  import opened Projectiles
  import opened Enemies

  /** GameState.dragStartPos: where and when (Date.now(), in ms) a fling
      began. */
  datatype DragStamp = DragStamp(x: real, y: real, time: int)

  /** GameState.dragCurrentPos. */
  datatype Point = Point(x: real, y: real)

  /** The scalar fields of GameState: the mode flags and counters. */
  datatype Session = Session(
    gameActive: bool, isPaused: bool, inPort: bool, inMenu: bool,
    frameCount: nat, enemiesKilled: int,
    gold: int, wave: int, enemiesToSpawn: int, spawnTimer: int)

  /** The flags and counters of GameState's initial value: the main menu of
      wave 1, no gold, five enemies to spawn. */
  const InitialSession: Session := Session(false, false, false, true, 0, 0, 0, 1, 5, 0)

  /** What `reset` does to the ship record (js/state.js:42-50). */
  function ResetShip(s: Ship): Ship {
    s.(hp := 100.0, maxHp := 100.0, tier := 1, cannons := [], crew := 0, bilgeLevel := 0,
       sinking := false, hasCaptain := false, rotation := 0.0)
  }

  /** What `reset` does to the flags and counters (js/state.js:51-63). */
  function ResetSession(c: Session): Session {
    c.(gold := 0, wave := 1, enemiesKilled := 0, gameActive := false, isPaused := false,
       inPort := false, enemiesToSpawn := 5, inMenu := true)
  }

  /** `reset` brings the ship back to its initial record except for the
      fields it leaves alone: position, hull size, slot table, bilge crew
      and the sinking animation counters. */
  lemma ResetShipIsInitial(s: Ship)
    ensures ResetShip(s) == InitialShip.(x := s.x, y := s.y, w := s.w, h := s.h, slots := s.slots,
                                         bilgeCrew := s.bilgeCrew, sinkProgress := s.sinkProgress,
                                         sinkAngle := s.sinkAngle)
    ensures ResetShip(s).cannons == [] && MountsDistinct(ResetShip(s)) && MountsInRange(ResetShip(s))
  {
  }

  /** `reset` brings the flags and counters back to their initial values
      except frameCount and spawnTimer. */
  lemma ResetSessionIsInitial(c: Session)
    ensures ResetSession(c) == InitialSession.(frameCount := c.frameCount, spawnTimer := c.spawnTimer)
  {
  }

  /** A second `reset` changes nothing. */
  lemma ResetIdempotent(s: Ship, c: Session)
    ensures ResetShip(ResetShip(s)) == ResetShip(s)
    ensures ResetSession(ResetSession(c)) == ResetSession(c)
  {
  }

  /** The entry of a list at an index.  Distinct is stated over it so that
      its quantifier is used only where a proof asks for it. */
  function At<T>(xs: seq<T>, i: int): (r: T)
    requires 0 <= i < |xs|
    ensures r == xs[i]
  {
    xs[i]
  }

  /** The objects of a list are pairwise different. */
  predicate Distinct<T(==)>(xs: seq<T>) {
    forall i, j :: 0 <= i < j < |xs| ==> At(xs, i) != At(xs, j)
  }

  /** In a list without repeats, the entry at i is no other entry. */
  lemma DistinctOthers<T>(xs: seq<T>, i: int)
    requires Distinct(xs) && 0 <= i < |xs|
    ensures forall j :: 0 <= j < |xs| && j != i ==> xs[j] != xs[i]
  {
    forall j | 0 <= j < |xs| && j != i
      ensures xs[j] != xs[i]
    {
      if j < i {
        assert At(xs, j) != At(xs, i);
      } else {
        assert At(xs, i) != At(xs, j);
      }
    }
  }

  /** Dropping the last entry of a list without repeats leaves a list
      without repeats that does not contain that entry. */
  lemma DistinctInit<T>(xs: seq<T>)
    requires Distinct(xs) && xs != []
    ensures Distinct(xs[..|xs| - 1])
    ensures xs[|xs| - 1] !in xs[..|xs| - 1]
  {
    var init := xs[..|xs| - 1];
    forall i, j | 0 <= i < j < |init|
      ensures At(init, i) != At(init, j)
    {
      assert At(xs, i) != At(xs, j);
    }
    DistinctOthers(xs, |xs| - 1);
  }

  /** Appending a new entry to a list without repeats keeps it so. */
  lemma DistinctSnoc<T>(xs: seq<T>, x: T)
    requires Distinct(xs) && x !in xs
    ensures Distinct(xs + [x])
  {
    var ys := xs + [x];
    forall i, j | 0 <= i < j < |ys|
      ensures At(ys, i) != At(ys, j)
    {
      if j < |xs| {
        assert At(xs, i) != At(xs, j);
      }
    }
  }

  /** The values of a list of enemies. */
  function EnemyModels(es: seq<Enemy>): (r: seq<EnemyData>)
    reads set e | e in es
    ensures |r| == |es|
    ensures forall i {:trigger r[i]} :: 0 <= i < |es| ==> r[i] == es[i].Model()
  {
    if es == [] then [] else EnemyModels(es[..|es| - 1]) + [es[|es| - 1].Model()]
  }

  /** The values of a list of projectiles. */
  function ProjectileModels(ps: seq<Projectile>): (r: seq<ProjectileData>)
    reads set p | p in ps
    ensures |r| == |ps|
    ensures forall i {:trigger r[i]} :: 0 <= i < |ps| ==> r[i] == ps[i].Model()
  {
    if ps == [] then [] else ProjectileModels(ps[..|ps| - 1]) + [ps[|ps| - 1].Model()]
  }

  /** The values of a list of splashes. */
  function SplashModels(ss: seq<Splash>): (r: seq<SplashData>)
    reads set s | s in ss
    ensures |r| == |ss|
    ensures forall i {:trigger r[i]} :: 0 <= i < |ss| ==> r[i] == ss[i].Model()
  {
    if ss == [] then [] else SplashModels(ss[..|ss| - 1]) + [ss[|ss| - 1].Model()]
  }

  /** ProjectileModels distributes over concatenation. */
  lemma ProjectileModelsAppend(a: seq<Projectile>, b: seq<Projectile>)
    ensures ProjectileModels(a + b) == ProjectileModels(a) + ProjectileModels(b)
  {
  }

  /** SplashModels distributes over concatenation. */
  lemma SplashModelsAppend(a: seq<Splash>, b: seq<Splash>)
    ensures SplashModels(a + b) == SplashModels(a) + SplashModels(b)
  {
  }

  class Game {
    var gameActive: bool
    var isPaused: bool
    var inPort: bool
    var inMenu: bool
    var frameCount: nat
    var enemiesKilled: int
    var gold: int
    var wave: int
    var enemiesToSpawn: int
    var spawnTimer: int
    var projectiles: seq<Projectile>
    var enemies: seq<Enemy>
    var particles: seq<Particle>
    var splashes: seq<Splash>
    var enemyProjectiles: seq<Projectile>
    var ship: Ship
    var isDraggingAmmo: bool
    var dragStartPos: DragStamp
    var dragCurrentPos: Point

    function Scalars(): Session
      reads this
    {
      Session(gameActive, isPaused, inPort, inMenu, frameCount, enemiesKilled,
              gold, wave, enemiesToSpawn, spawnTimer)
    }

    /** The lists as the game builds them: every entity appears once in its
        list, the player's shots are friendly and the enemies' are not. */
    predicate Valid()
      reads this
    {
      && Distinct(enemies)
      && Distinct(projectiles)
      && (forall i :: 0 <= i < |projectiles| ==> !projectiles[i].isEnemy)
      && (forall i :: 0 <= i < |enemyProjectiles| ==> enemyProjectiles[i].isEnemy)
    }

    /** GameState's initial value.  The drag fields are absent from the
        literal and only read while a drag is in progress; they start at
        zero here. */
    constructor ()
      ensures Scalars() == InitialSession && ship == InitialShip
      ensures projectiles == [] && enemies == [] && particles == [] && splashes == [] && enemyProjectiles == []
      ensures !isDraggingAmmo
      ensures Valid()
    {
      gameActive, isPaused, inPort, inMenu := false, false, false, true;
      frameCount, enemiesKilled := 0, 0;
      gold, wave, enemiesToSpawn, spawnTimer := 0, 1, 5, 0;
      projectiles, enemies, particles, splashes, enemyProjectiles := [], [], [], [], [];
      ship := InitialShip;
      isDraggingAmmo := false;
      dragStartPos, dragCurrentPos := DragStamp(0.0, 0.0, 0), Point(0.0, 0.0);
    }

    /** The ship part of `reset` (js/state.js:42-50). */
    method ResetShipRecord()
      modifies this`ship
      ensures ship == ResetShip(old(ship))
    {
      ship := ship.(hp := 100.0, maxHp := 100.0, tier := 1, cannons := [], crew := 0, bilgeLevel := 0,
                    sinking := false, hasCaptain := false, rotation := 0.0);
    }

    /** The flags and counters part of `reset` (js/state.js:51-63). */
    method ResetCounters()
      modifies this`gold, this`wave, this`enemiesKilled, this`gameActive, this`isPaused
      modifies this`inPort, this`enemiesToSpawn, this`inMenu
      ensures Scalars() == ResetSession(old(Scalars()))
    {
      gold, wave := 0, 1;
      enemiesKilled := 0;
      gameActive, isPaused, inPort := false, false, false;
      enemiesToSpawn := 5;
      inMenu := true;
    }

    /** The five entity lists emptied (js/state.js:53-57). */
    method ClearLists()
      modifies this`enemies, this`projectiles, this`enemyProjectiles, this`particles, this`splashes
      ensures projectiles == [] && enemies == [] && particles == [] && splashes == [] && enemyProjectiles == []
      ensures Valid()
    {
      enemies, projectiles, enemyProjectiles, particles, splashes := [], [], [], [], [];
    }

    /** `GameState.reset()`: the ship and the counters as `ResetShip` and
        `ResetSession` say, all five lists emptied; the drag fields are
        outside its frame. */
    method Reset()
      modifies this`ship, this`gold, this`wave, this`enemiesKilled, this`gameActive, this`isPaused
      modifies this`inPort, this`enemiesToSpawn, this`inMenu
      modifies this`enemies, this`projectiles, this`enemyProjectiles, this`particles, this`splashes
      ensures ship == ResetShip(old(ship))
      ensures Scalars() == ResetSession(old(Scalars()))
      ensures projectiles == [] && enemies == [] && particles == [] && splashes == [] && enemyProjectiles == []
      ensures Valid()
    {
      ResetShipRecord();
      ResetCounters();
      ClearLists();
    }
  }
}
