# Sea Fling Defense — a Dafny model of the game state and its updates

Sea Fling Defense is a browser game. The player flings cannon balls from a
ship. Enemy rafts, gunboats, serpents and a boss close in, and the player
spends gold in a port shop. This project models the part of the game that
changes its state:

- **GameState** (`js/state.js`). It is the class `State.Game`: the mode
  flags and counters, the ship record, and the five entity lists. These are
  the enemies, the friendly shots, the enemy shots, the particles and the
  splashes. The model covers its initial value and `reset`.
- **The ship** (`js/entities/Ship.js`):
  - `updateShipStats` rebuilds the weapon-slot table of the hull tier.
  - `updateCaptain` is the auto-helm. It steers towards the first live
    boss, or else the centroid of the live enemies, and turns by 0.015
    times the smaller of the bow and stern heading differences.
- **The entities** (`js/entities/Enemy.js`, `Projectile.js`,
  `Particle.js`). Each is a class whose `update` changes its fields in
  place. `Model()` gives the value of an object's fields. Every method is
  proved against a pure step function on that value (`Updated`, `Advance`,
  `ParticleTick`, …). The lemmas are proved about those functions.
- **The frame update** (`js/main.js`). `gameLoop`'s state update runs in
  this order:
  1. the frame counter;
  2. the captain;
  3. the enemy pass, whose shots are appended to `enemyProjectiles`;
  4. the friendly-shot pass, whose splashes are appended to `splashes`;
  5. the filter of dead enemies.

  Each pass is a loop over the list's objects, proved against a function
  over the list of values (`UpdatedAll`, `AllShots`, `AdvanceAll`,
  `AllSplashes`, `KeepLive`). `resize` places the ship.
- **The fling** (`js/systems/Input.js`). `startDrag`, `moveDrag` and
  `endDrag` cover the press near the ship, the velocity from the drag
  length and duration, the minimum speed of 3, and the cap at 16.
- **The shop** (`js/systems/UI.js`):
  - the six `SHOP_ITEMS` actions;
  - `purchase` with its floor(1.2 × price) repricing;
  - `addGold`;
  - the per-item disabled test of `initShop`.

Reals stand for the game's doubles. `Math.atan2`, `sin`, `cos` and `hypot`
are a `Trig` parameter. Where a property needs `hypot` to be the Euclidean
length, it assumes that as a precondition (`IsHypot`).

Each `Math.random` draw and each `Date.now()` is a parameter of the
operation that uses it. An entity's `update` returns the objects the source
pushes onto a GameState list, and the caller appends them at once. The
game-loop methods then state what the lists hold after the pass.

Some behaviour of the code is worth knowing:

- `Projectile.update` moves a shot whether or not it is still `active`
  (`InactiveStillMoves`). Inactive shots are also never removed from
  `projectiles`: the frame update never filters that list.
- `reset` keeps the ship's slot table. After a reset from tier 2 or 3, the
  hull is tier 1 but keeps the larger table until `updateShipStats` runs
  again (`ResetUnfits`). Whether the restart path calls it is not part of
  this model. If it does not, six cannon purchases fill slots 0 to 4 and 6
  of the stale table. A ship upgrade then lays out the six-slot tier-2
  table and strands the mount on slot 6 (`ResetThenUpgradeStrandsMount`).
  `initShop` would then look up a slot that does not exist.
  `updateShipStats` on a hull without mounts always fits it
  (`StatsFitBareHull`).
- A gunboat or boss fires on its first update that finds the ship in range
  (`FirstUpdateFires`), because the constructor sets `reload` to 0.

## Model

| member | source | states |
|---|---|---|
| Geometry.Wrap | js/entities/Ship.js:56-59 | the normalised heading lies in (-pi, pi] and differs from its argument by whole turns |
| Geometry.WrapUnique | js/entities/Ship.js:56-59 | a heading in (-pi, pi] that differs from d by whole turns is Wrap(d): the normalisation has exactly one result |
| Geometry.NormalizeAngle | js/entities/Ship.js:56 | the two `while` loops (add 2pi while at most -pi, subtract 2pi while above pi) end with Wrap(d), in (-pi, pi] |
| State.ResetShipIsInitial | js/state.js:24-50 | `reset` returns the ship to the initial literal except position, hull size, slot table, bilge crew and the sinking counters; it leaves no mounts, and the mount invariants hold |
| State.ResetSessionIsInitial | js/state.js:3-63 | `reset` returns the flags and counters to the initial values except frameCount and spawnTimer |
| State.ResetIdempotent | js/state.js:41-64 | a second `reset` changes nothing |
| State.Game.constructor | js/state.js:3-39 | the initial GameState: menu mode, wave 1, no gold, 5 enemies to spawn, the initial ship, all lists empty, no drag |
| State.Game.ResetShipRecord | js/state.js:42-50 | the ship fields `reset` writes, as ResetShip |
| State.Game.ResetCounters | js/state.js:51-63 | the counters and flags `reset` writes, as ResetSession |
| State.Game.ClearLists | js/state.js:53-57 | the five entity lists emptied; the list invariant holds |
| State.Game.Reset | js/state.js:41-64 | the ship as ResetShip, the counters as ResetSession, all lists empty, the invariant kept; only the fields `reset` writes change |
| Particles.ParticleAt | js/entities/Particle.js:4-10 | a new particle sits at (x, y) with life 1; with draws in [0,1) its size is in [1, 3) and each velocity component is in [-speed/2, speed/2) |
| Particles.ParticleAfter | js/entities/Particle.js:11 | after n updates a particle has moved n times its constant velocity and lost 0.05 life per update, and nothing else changed |
| Particles.SplashAt | js/entities/Particle.js:15 | a new splash sits at (x, y) with life 1 and radius 0 |
| Particles.SplashAfter | js/entities/Particle.js:16 | after n updates a splash has radius 1.5n and life 1 - 0.03n and has not moved |
| Particles.Particle.constructor | js/entities/Particle.js:4-10 | the new object's fields are ParticleAt of its arguments and draws |
| Particles.Particle.Update | js/entities/Particle.js:11 | the fields become one ParticleTick of the old fields |
| Particles.Splash.constructor | js/entities/Particle.js:15 | the new object's fields are SplashAt(x, y) |
| Particles.Splash.Update | js/entities/Particle.js:16 | the fields become one SplashTick of the old fields |
| Projectiles.Launched | js/entities/Projectile.js:9-16 | a new shot is active with life 180, height 10 and an empty trail; enemy shots have size 4, lift 2, gravity 0.1, friendly ones 8, 4, 0.15 |
| Projectiles.Advance | js/entities/Projectile.js:18-39 | one update: the shot moves by its velocity; gravity acts above height -5; at or below the water it is pinned to -1, damped by 0.8 and loses 15 life; it stays active only while life is positive; a friendly airborne shot adds a trail sample every third frame |
| Projectiles.ImpactOnlyWhenLanding | js/entities/Projectile.js:26-30 | the splash or spark branch is taken only by an active shot on an update that lands it (height -1, 15 life burnt) |
| Projectiles.StaysInactive | js/entities/Projectile.js:38 | once inactive, a shot stays inactive over any number of updates |
| Projectiles.RunMonotone | js/entities/Projectile.js:18-39 | over n updates life never grows and the trail only grows, by at most one sample per update |
| Projectiles.InactiveStillMoves | js/entities/Projectile.js:22 | an inactive shot with velocity still moves on update |
| Projectiles.Projectile.constructor | js/entities/Projectile.js:9-16 | the new object's fields are Launched of its arguments |
| Projectiles.Projectile.Update | js/entities/Projectile.js:18-39 | the fields become Advance of the old ones; without an impact nothing is created; an impact creates one new splash at the shot (friendly) or one white spark of speed 1 (enemy) |
| Projectiles.Projectile.Fly | js/entities/Projectile.js:18-38 | the field updates in source order give Advance, and the impact flag is Impacts of the old fields |
| Projectiles.Projectile.SampleTrail | js/entities/Projectile.js:19-21 | the trail step, as Trailed |
| Projectiles.Projectile.Move | js/entities/Projectile.js:22-24 | the motion and height step, as Flown |
| Projectiles.Projectile.Skim | js/entities/Projectile.js:26-36 | the water step, as Skimmed; the flag says whether the effect branch was taken |
| Projectiles.Projectile.Expire | js/entities/Projectile.js:38 | deactivation at life 0 or less, as Expired |
| Enemies.Spawned | js/entities/Enemy.js:9-29 | a new enemy is alive, unflagged, unrotated and unloaded, with full hp; the base stats per type (raft 20/0.2/20, gunboat 30/0.4/20, serpent 60/0.4/25, boss 300+50·wave/0.1/50, top centre at y -80) |
| Enemies.SpawnOnEdge | js/entities/Enemy.js:10-15 | with draws in [0,1), every enemy but the boss starts 50 outside the top edge (over the width) or a side edge (in the upper 60% of the height) |
| Enemies.UnstattedOnEdge | js/entities/Enemy.js:10-15 | the same for the position drawn before `initStats` |
| Enemies.Nudged | js/entities/Enemy.js:65-68 | only x changes; the boss is never nudged; an enemy within 20 of one side edge moves 0.5 inwards; on a canvas narrower than 40.5 both tests fire and the two nudges cancel |
| Enemies.Moved | js/entities/Enemy.js:62-88 | `moveBehavior` changes only x, y, angle and sway; y ends 0.1 below the steered y; sway grows by 0.05 (serpent), 0.015 (boss) or not at all |
| Enemies.Reloaded | js/entities/Enemy.js:91-97 | only the reload changes, and only for gunboat and boss: reset to the fire rate when firing, else down by one |
| Enemies.ShotFrom | js/entities/Enemy.js:98-106 | an enemy shot is a new enemy Projectile of damage 10 at the enemy's position |
| Enemies.ShotAndCulled | js/entities/Enemy.js:57-59 | after shooting only reload and dead change, and the enemy is dead exactly when it was dead or lies below canvasHeight + 50 |
| Enemies.ShotsOf | js/entities/Enemy.js:43-60 | one update fires at most one shot, and it is an active enemy shot |
| Enemies.IdleUpdate | js/entities/Enemy.js:44 | a dead enemy, or any enemy while the ship sinks, is not changed and fires nothing |
| Enemies.ContactUpdate | js/entities/Enemy.js:51-55 | on contact the enemy only moves and raises toExplode: it neither dies nor reloads nor fires; without contact toExplode keeps its value |
| Enemies.FreeUpdate | js/entities/Enemy.js:43-60 | without contact the enemy moves, dies exactly below canvasHeight + 50, and (gunboat and boss only) counts its reload down or fires exactly one shot when it is used up and the ship is in range |
| Enemies.FirstUpdateFires | js/entities/Enemy.js:90-97 | a new gunboat or boss fires on its first update that finds the ship in range and out of contact, and reloads to its fire rate |
| Enemies.Enemy.constructor | js/entities/Enemy.js:9-29 | the new object's fields are Spawned of its arguments and draws |
| Enemies.Enemy.InitStats | js/entities/Enemy.js:31-41 | the fields become WithStats of the old ones |
| Enemies.Enemy.Update | js/entities/Enemy.js:43-60 | the fields become Updated of the old ones, and the returned new shots are exactly ShotsOf |
| Enemies.Enemy.Engage | js/entities/Enemy.js:45-59 | the same for an enemy past the early return |
| Enemies.Enemy.ShootAndCull | js/entities/Enemy.js:57-59 | the fields become ShotAndCulled; one new shot exactly when Fires |
| Enemies.Enemy.MoveBehavior | js/entities/Enemy.js:62-88 | the fields become Moved of the old ones |
| Enemies.Enemy.Steer | js/entities/Enemy.js:70-86 | the fields become Steered of the old ones |
| Enemies.Enemy.Slither | js/entities/Enemy.js:70-74 | the serpent's rule, as Steered |
| Enemies.Enemy.Weave | js/entities/Enemy.js:75-80 | the boss's rule, as Steered |
| Enemies.Enemy.Track | js/entities/Enemy.js:81-86 | the tracking rule of the other types, as Steered |
| Enemies.Enemy.NudgeFromEdges | js/entities/Enemy.js:65-68 | the fields become Nudged of the old ones |
| Enemies.Enemy.ShootBehavior | js/entities/Enemy.js:90-111 | the fields become Reloaded; exactly one new shot, ShotFrom the enemy, when it Fires, else none |
| ShipControl.SlotLayout | js/entities/Ship.js:6-31 | 0, 3, 6 or 8 slots for tier < 1, 1, 2 and >= 3; where the swivels are at each tier; swivels have a full-turn arc, broadside cannons pi/1.5 |
| ShipControl.UpdateShipStats | js/entities/Ship.js:6-31 | the push-and-patch rebuild gives SlotLayout(tier) and the tier's hull size, and leaves every other ship field (the mounts included) alone |
| ShipControl.FindLiveBoss | js/entities/Ship.js:40 | the index of the first live boss, or none exactly when there is no live boss |
| ShipControl.LiveCountZero | js/entities/Ship.js:44-47 | no enemy is counted exactly when every enemy is dead |
| ShipControl.LiveSumXBounds | js/entities/Ship.js:45 | if every live enemy has lo <= x <= hi, the summed x lies between lo and hi times the count |
| ShipControl.LiveSumYBounds | js/entities/Ship.js:45 | the same for y |
| ShipControl.TargetChoice | js/entities/Ship.js:39-48 | there is no target exactly when every enemy is dead; with a live boss the target is the first live boss |
| ShipControl.CentroidInBox | js/entities/Ship.js:44-46 | the centroid of the live enemies lies in every box holding them all, and it is the target when no boss lives |
| ShipControl.CentroidX | js/entities/Ship.js:46 | the mean x lies within the bounds of the live enemies' x |
| ShipControl.CentroidY | js/entities/Ship.js:46 | the mean y lies within the bounds of the live enemies' y |
| ShipControl.WrapHalfTurn | js/entities/Ship.js:52-59 | the stern difference is the bow difference moved by half a turn, back into (-pi, pi] |
| ShipControl.HelmQuarterTurn | js/entities/Ship.js:50-61 | the chosen difference is diff1 or diff2, the smaller in magnitude (diff2 on a tie), and within a quarter turn |
| ShipControl.Helmed | js/entities/Ship.js:33-63 | the helm changes only the rotation |
| ShipControl.HelmBounds | js/entities/Ship.js:35-62 | without a captain, while sinking or with every enemy dead the ship is unchanged; otherwise it turns by at most 0.015 pi/2 |
| ShipControl.UpdateCaptain | js/entities/Ship.js:33-63 | GameState.ship becomes Helmed by the target of the current enemies |
| ShipControl.ChooseTarget | js/entities/Ship.js:39-48 | the `find` and the summing loop give CaptainTarget |
| ShipControl.HeadingDiff | js/entities/Ship.js:50-61 | the two normalised differences and the choice give HelmTurn |
| Shop.FindFreeSlotFrom | js/systems/UI.js:15 | the lowest free slot of the type at or after `from`, or -1 exactly when there is none |
| Shop.FindFreeSlot | js/systems/UI.js:15 | the lowest free slot of the type, -1 exactly when none is free |
| Shop.ActionOutcomes | js/systems/UI.js:8-31 | crew and bilge always add one; the captain succeeds exactly once; the ship upgrade succeeds exactly below tier 3 and lays out the new tier's slots, keeping the mounts; a failed action changes nothing |
| Shop.MountOutcome | js/systems/UI.js:14-23 | a cannon or swivel action succeeds exactly when a free slot of the type exists, and appends one unloaded mount on the lowest one |
| Shop.ActionKeepsMountsDistinct | js/systems/UI.js:8-31 | no action binds two mounts to one slot |
| Shop.ActionKeepsFitted | js/systems/UI.js:8-31 | every action keeps the slot table equal to the tier's layout and every mount on an existing slot |
| Shop.StatsFitBareHull | js/entities/Ship.js:6-31 | `updateShipStats` on a ship without mounts gives the tier's slot table, so the hull is fitted |
| Shop.ResetUnfits | js/state.js:41-50 | `reset` from tier 2 or 3 leaves tier 1 with the old tier's larger table, which is not fitted |
| Shop.MountsOnLowest | js/systems/UI.js:15-16 | a cannon or swivel action mounts on the lowest free slot of its type and succeeds |
| Shop.BuyCannonsStranded | js/systems/UI.js:14-18 | on an empty tier-3 table, the first six cannons go on slots 0 to 4 and 6 in that order |
| Shop.ResetThenUpgradeStrandsMount | js/systems/UI.js:28-31 | after `reset` from tier 3, six cannon purchases and the ship upgrade leave a mount on slot 6 of a six-slot table, outside the hull's slots |
| Shop.DisabledIffPurchaseFails | js/systems/UI.js:74-80 | a button is enabled exactly when the player can pay and the item's action will succeed |
| Shop.NextPriceRises | js/systems/UI.js:94 | from 5 on, floor(1.2 · price) is above the price by at least a fifth, rounded down |
| Shop.PurchaseOutcome | js/systems/UI.js:89-98 | a purchase either changes nothing, or it runs the successful action, takes exactly the price (the gold stays non-negative) and reprices only that item |
| Shop.PurchaseRaisesPrice | js/systems/UI.js:89-98 | a purchase keeps every price at 150 or more, never lowers a price and strictly raises the bought one |
| Shop.StartingPricesFrom150 | js/systems/UI.js:6-32 | every price in SHOP_ITEMS starts at 150 or more |
| Shop.AddGold | js/systems/UI.js:44-45 | the gold changes by the amount |
| Shop.RunAction | js/systems/UI.js:8-31 | the action on GameState.ship gives Acted |
| Shop.MountOn | js/systems/UI.js:14-23 | the cannon and swivel actions give Mounted |
| Shop.Store.constructor | js/systems/UI.js:6-32 | the prices start as StartingItems |
| Shop.Store.Purchase | js/systems/UI.js:89-98 | gold, ship and prices become Purchased |
| Shop.Store.DisabledFlags | js/systems/UI.js:74-80 | the loop gives each item, in order, its Disabled flag |
| Input.DragStarted | js/systems/Input.js:26-44 | a press when aiming is not allowed changes nothing; otherwise the drag either stays as it was or starts and stands at the pressed point (the client coordinate, or the page coordinate when that is 0), stamped `now` |
| Input.StartNearShip | js/systems/Input.js:33-34 | with the real hypot, an allowed press starts a drag exactly when it lands within 100 of the ship |
| Input.DragMoved | js/systems/Input.js:46-51 | only a drag in progress follows the pointer, which falls back to the page coordinate of a zero client coordinate |
| Input.FlingNoFasterThanDrag | js/systems/Input.js:54-65 | the fling velocity is no longer than the drag vector, per component and in total |
| Input.CappedSpeed | js/systems/Input.js:67-77 | a shot is fired exactly when the speed exceeds 3; a fired shot's speed is in (3, 16], exactly 16 when capped, in the same direction |
| Input.FiredSpeed | js/systems/Input.js:53-80 | a shot `endDrag` fires is faster than 3 and at most 16 |
| Input.FiredNoFasterThanDrag | js/systems/Input.js:53-80 | a shot `endDrag` fires is no faster than the drag is long |
| Input.CappedNoFaster | js/systems/Input.js:73-77 | capping never speeds a shot up |
| Input.StartDrag | js/systems/Input.js:26-44 | the drag fields become DragStarted |
| Input.MoveDrag | js/systems/Input.js:46-51 | the drag fields become DragMoved |
| Input.EndDrag | js/systems/Input.js:53-85 | a drag in progress always ends; it appends exactly one new friendly Projectile (from the ship, with the Fired velocity) when one is fired, and otherwise the list is unchanged; the list invariant is kept |
| GameLoop.Resize | js/main.js:13-18 | the ship is placed at half the width and 60% of the height; nothing else of it changes |
| GameLoop.UpdatedAll | js/main.js:25 | the enemy pass keeps the list length, and entry i is enemy i updated on its own |
| GameLoop.AllShots | js/main.js:25 | the pass fires at most one shot per enemy, all of them active enemy shots |
| GameLoop.AllShotsOnlyFromArmed | js/main.js:25 | nobody fires at a sinking ship, and rafts and serpents never fire |
| GameLoop.UpdateEnemy | js/main.js:25 | one enemy updated, its shots appended after those fired so far |
| GameLoop.EnemyStep | js/main.js:25 | one iteration keeps the pass invariant: enemies 0..i updated, the rest untouched, the shots made so far are AllShots of them |
| GameLoop.RunEnemyPass | js/main.js:25 | the `forEach` over the enemies ends with the pass invariant at the end of the list, and with the shots appended |
| GameLoop.RunEnemies | js/main.js:25 | the enemies' values are UpdatedAll of the old ones, and the appended shots are AllShots |
| GameLoop.EnemiesAndShots | js/main.js:25 | the enemy shot list keeps its old entries and gains exactly AllShots |
| GameLoop.EnemyPassKeepsScalars | js/main.js:25 | the same, and the counters, ship and particles do not change |
| GameLoop.EnemyPassKeepsFriendly | js/main.js:25 | the same, and the friendly shots do not change |
| GameLoop.UpdateEnemies | js/main.js:25 | the enemy pass; the splashes do not change either |
| GameLoop.AdvanceAll | js/main.js:26 | the projectile pass keeps the list length, and entry i is shot i advanced on its own |
| GameLoop.SplashOf | js/entities/Projectile.js:26-30 | one update makes at most one splash |
| GameLoop.AllSplashes | js/main.js:26 | the pass makes at most one splash per shot |
| GameLoop.SplashesCountLandings | js/main.js:26 | no landing means no splash; if every shot is a landing friendly shot there is one splash each |
| GameLoop.UpdateProjectile | js/main.js:26 | one friendly shot updated, its splash appended after those made so far |
| GameLoop.ProjectileStep | js/main.js:26 | one iteration keeps the pass invariant |
| GameLoop.ProjectilePassDone | js/main.js:26 | at the end of the list the shots are AdvanceAll and the new splashes AllSplashes of the old values |
| GameLoop.RunProjectilePass | js/main.js:26 | the `forEach` over the friendly shots ends with the pass invariant, with the splashes appended |
| GameLoop.AdvanceProjectiles | js/main.js:26 | the friendly shots' values are AdvanceAll on the current frame, and the appended splashes are AllSplashes |
| GameLoop.ProjectilesAndSplashes | js/main.js:26 | the splash list keeps its old entries and gains exactly AllSplashes |
| GameLoop.PassKeepsScalars | js/main.js:26 | the same, and the counters, ship and particles do not change |
| GameLoop.PassKeepsEnemies | js/main.js:26 | the same, and the enemies do not change |
| GameLoop.UpdateProjectiles | js/main.js:26 | the projectile pass; the enemy shots do not change either |
| GameLoop.KeepLive | js/main.js:28 | the filter keeps exactly the live enemies of the list |
| GameLoop.KeepLiveAppend | js/main.js:28 | the filter keeps the list order |
| GameLoop.KeepLiveDistinct | js/main.js:28 | the filter never duplicates an enemy |
| GameLoop.PruneEnemies | js/main.js:28 | the enemy list becomes KeepLive of itself; nothing else changes |
| GameLoop.NextFrame | js/main.js:22 | the frame counter rises by one; nothing else changes |
| GameLoop.ShotsAreHostile | js/main.js:25 | after the enemy pass `enemyProjectiles` holds only enemy shots |
| GameLoop.Settle | js/main.js:26-28 | the projectile pass, then the filter |
| GameLoop.Fight | js/main.js:25-28 | the enemy pass against the current ship, then the projectile pass and the filter; the list invariant is kept |
| GameLoop.SteerKeepsEnemies | js/main.js:23 | `updateCaptain`, which leaves the counters, particles and enemies alone |
| GameLoop.SteerKeepsShots | js/main.js:23 | the same, and the friendly shots do not change |
| GameLoop.SteerKeepsHostile | js/main.js:23 | the same, and the enemy shots do not change |
| GameLoop.Steer | js/main.js:23 | `updateCaptain`, which touches only the ship |
| GameLoop.Play | js/main.js:23-28 | the captain steers on the old enemies, then the passes run against the steered ship |
| GameLoop.Step | js/main.js:21-28 | the running branch: frame + 1, the steered ship, each enemy updated and filtered in order, the friendly shots advanced on the new frame, the new shots and splashes appended, the particles untouched; only those fields are written, so the drag fields keep their values |
| GameLoop.Tick | js/main.js:20-29 | nothing changes unless the game is running and not paused; otherwise the state after Step; the drag fields never change; the list invariant is kept |

## Left out

- Drawing (`Renderer.js`), sound (`Audio.js`), the DOM and the frame
  scheduling (`requestAnimationFrame`) are not part of this model. Neither
  is `initInput`'s event wiring, which only forwards events.
- `Math.atan2`, `sin`, `cos` and `hypot` are not defined; they arrive as
  the `Trig` parameter. Doubles are reals, so IEEE rounding is not
  modelled.
- `initShop` is modelled only as its disabled test. The grid, the button
  markup and the owned counts are display-only.
- Shop.AddGold: the HUD refresh and the port redraw after the gold change
  are not modelled.
- Shop.Store.Purchase: the shop redraw (`initShop`) after a purchase is not
  modelled.
- Shop items carry no name or icon, since neither affects the state.
- The drag fields are absent from GameState's literal. The model starts
  them at not dragging, at (0, 0, time 0).
- The entity methods return the objects that the source pushes onto
  GameState lists, and the caller appends them. The spark of an enemy
  shot's impact is returned by `Projectile.Update`. The game-loop pass
  runs only friendly shots, so its spark draws are 0 and no spark arises.
- Enemies.Enemy.constructor: starts `toExplode` at false. The source leaves it
  undefined, which every branch shown reads as false.
- `toExplode` is set but not read by any modelled code. The damage it
  stands for is handled outside the core.
- `spawnFloatingText` and the source's elided code (boss volleys, enemy
  spawning, collisions) are not part of this model.
- GameLoop.Tick: freshness of the new shot and splash objects is stated by
  the entity methods, not at the Tick level.
- GameLoop.Step: the same as for Tick.
