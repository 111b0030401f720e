# Bass-line brawler game core, in Dafny

This project models the game logic of `game.js`, a top-down browser action game. The player fights
three waves of StreetCrawlers and then the AmpFiend boss. It covers:

- the game's collision test;
- the frame update and the collision passes;
- waves, the boss, loot drops and particle bursts;
- the player's input handling, dash, three attacks, stamina, canvas clamp and damage intake;
- both enemy kinds' updates, including the boss's phases and its stomp, summon and overload attacks;
- projectiles, loot pickups and particles.

The modules follow the program's classes:

| module | file | models |
|---|---|---|
| `Geometry` | `geometry.dfy` | `Game.collision`, the clamp of `constrainToCanvas`, squared distances |
| `Sweep` | `sweep.dfy` | the `forEach` + `splice(index, 1)` pattern every pass of the game uses |
| `Entities` | `entities.dfy` | `Projectile`, `LootItem`, `Particle` and the player's weapon, as values |
| `Enemies` | `enemies.dfy` | `StreetCrawler` and `AmpFiend`, as values whose update returns what it adds |
| `Players` | `player.dfy` | `Player`, a class whose methods update its fields in place |
| `Simulation` | `game.dfy` | `Game`, a class owning the player, the four entity arrays (sequence fields its methods reassign whole), score, wave and state |

Time and randomness are inputs:

- `now` is the wall clock `Date.now()` in milliseconds. One frame reads it once.
- `dt` is the frame's delta time in seconds.
- The random decay rate of the particles is a `decay` parameter, one value per call.
- Each loot roll is a `LootRoll`, and each spawn position is a `Side` plus a fraction along that edge.

The keyboard state and the aiming direction arrive as an `Input`. Timers the game starts with
`setTimeout` are counted in `pendingSpawns` and `pendingWaveAdvances`. `FireSpawn` and
`FireNextWave` fire them one at a time.

Distances are compared squared (`DistSq(...) < r * r` for `distance < r`), which needs no square
root. Collision boxes use each entity's corner and size, as the game's `collision` does.

The removal passes reproduce a quirk of the source exactly. A `forEach` fixes its number of visits
at the start. A `splice` at index k shifts the next element down to k, so the next visit skips it:

- `Sweep.SweepSkipsFollower` shows the skipped element is neither updated nor tested in that pass.
- `Sweep.SweepAllGone` shows that of L elements that should all go, only ceil(L/2) are removed.
- `Simulation.DeadCrawlerSkipsFollower` shows the same skip in the enemy pass.

Two more behaviours of the source are stated as written:

- `checkWaveProgress` schedules another `nextWave` on every frame while the field is empty.
  Every one of those scheduled calls later fires and raises the wave counter
  (`Simulation.Game.CheckWaveProgress`, `Simulation.Game.FireNextWave`).
- A player who dies in the frame that clears the last wave ends in the level-complete state,
  because the wave check runs after the death (`Simulation.Game.Update`).

## Model

Proof helpers have no row: `Simulation.ConcatAssoc` (sequence concatenation is associative), and
the ghost views `Simulation.Game.Capture`, `Simulation.Game.SceneAt` and `Simulation.Game.ClashState`.
These views collect the fields a phase reads or changes into one value, so that a phase can be
compared with its pure definition. The ghost predicate `Simulation.Game.Quiet` (no enemy, no loot,
no hostile projectile) names the field of a freshly started wave, on which a frame can neither
hurt the player nor score.

| member | source | states |
|---|---|---|
| Geometry.CollidesSymmetric | game.js:212-217 | the overlap test gives the same answer with its arguments swapped |
| Geometry.TouchingEdgesDoNotCollide | game.js:212-217 | boxes that only share an edge do not collide, since every comparison is strict |
| Geometry.SameCornerCollides | game.js:212-217 | two boxes of positive size at the same corner always collide |
| Geometry.Clamp | game.js:476-479 | the clamped coordinate lies in [0, hi] when hi >= 0, is 0 when hi < 0, and is unchanged when already inside |
| Geometry.DistSq | game.js:555-564 | the squared distance that stands for every `Math.sqrt` distance comparison is never negative |
| Sweep.Pass | game.js:131-174 | a forEach-with-splice pass removes only updated values that are gone and keeps only original or not-gone values; kept and removed together account for every element; nothing happens once the visits run out |
| Sweep.PassWhenNoneGone | game.js:152-157 | if no visited element is gone, the pass removes nothing and updates every element from the current visit on |
| Sweep.SweepWhenNoneGone | game.js:166-171 | a whole pass with nothing gone is exactly the element-wise update (the loot pass) |
| Sweep.SweepSkipsFollower | game.js:145-147 | of two adjacent elements that would both go, only the first is removed and the second is left un-updated |
| Sweep.PassAllGone | game.js:152-157 | when every element would go, a pass from visit k removes (len - k + 1) / 2 of them |
| Sweep.SweepAllGone | game.js:152-157 | when every one of L elements would go, ceil(L/2) are removed and floor(L/2) survive |
| Sweep.PassPreserves | game.js:152-157 | a property that the update keeps holds of everything the pass keeps and everything it removes |
| Sweep.IdentityPassSplits | game.js:177-184 | a collision pass (no update) loses and invents nothing: kept plus removed is the original multiset |
| Sweep.IdentitySweepKeeps | game.js:203-208 | everything a collision pass keeps or removes was in the array |
| Sweep.RunPass | game.js:152-157 | the index loop, with the splice written as a sequence rebuilt by concatenation, computes exactly the pass `Sweep.Sweep` describes |
| Entities.NewProjectile | game.js:735-751 | a new projectile is alive, 8 units wide, and moves at speed along the given unit direction with the given damage and side |
| Entities.ProjectileStep | game.js:753-761 | a projectile moves by velocity times dt and is dead exactly when it was dead or has left the canvas grown by 50 on every side; velocity, damage, side and size never change |
| Entities.ProjectileOnCanvasLives | game.js:753-761 | a live projectile that stays within the grown canvas survives its update |
| Entities.NewParticles | game.js:234-238 | createParticles adds exactly `count` particles, each alive with full life at the given point |
| Entities.ParticleStep | game.js:843-851 | life falls by decay * 0.016 per update and the particle is dead exactly when it was dead or its life reached zero |
| Entities.ParticleLifeAfter | game.js:843-851 | after n updates with decay >= 1, life has fallen by at least n * 0.016 and the dead flag matches the life |
| Entities.ParticleLifeFalls | game.js:843-851 | life never rises across updates |
| Entities.FreshParticleDiesWithin63 | game.js:831-851 | every particle the game creates (life 1, decay at least 1) is dead within 63 updates |
| Entities.NewLoot | game.js:775-786 | a new loot item is alive, of the given kind, at the given point |
| Entities.LootStep | game.js:788-791 | a loot update advances the item's clock by dt and never marks it dead or changes its kind or place |
| Entities.Collect | game.js:793-808 | health pickups heal 30 capped at the maximum; weapon pickups give "Enhanced Mic" at +2 damage; epic pickups give "Bass Blade" at +10 damage and 50 points |
| Entities.CollectKeepsBounds | game.js:793-808 | collecting never lowers health or pushes it past the cap, heals at most 30, never weakens the weapon and never lowers the score |
| Entities.HealthPickupClamps | game.js:795-797 | a health pickup at 80 of 100 heals to exactly 100 |
| Enemies.NewStreetCrawler | game.js:509-527 | a crawler starts alive at full health (30) where it was placed |
| Enemies.NewAmpFiend | game.js:589-607 | the boss starts alive in phase 1 at full health (300) where it was placed |
| Enemies.Hurt | game.js:571-574 | enemy takeDamage lowers health by exactly the damage and changes nothing else, so the collision box is unchanged |
| Enemies.Tier | game.js:622-629 | the tier a health value calls for is always 1, 2 or 3 |
| Enemies.NextPhase | game.js:622-629 | the phase becomes the larger of the old phase and the tier: it never falls, stays within 1..3, is at least 3 at 120 health or less and at least 2 at 210 or less |
| Enemies.PhaseIsHighestTier | game.js:622-629 | along any sequence of health values the phase equals the highest tier reached so far, so it never decreases |
| Enemies.PhaseSkipsToThree | game.js:622-629 | one update from full health to 100 takes the boss from phase 1 straight to phase 3 |
| Enemies.Summon | game.js:679-688 | a summon adds exactly two live crawlers, 60 to the right and 60 to the left of the boss's corner |
| Enemies.Overload | game.js:690-706 | an overload fires exactly eight hostile projectiles of damage 15 from the boss's centre, at speed 200 along the eight compass directions |
| Enemies.PhaseAttack | game.js:652-677 | phase 1 stomps (15 particles; the player is hit exactly when within 100), phase 2 summons (10 particles), phase 3 overloads (20 particles) |
| Enemies.CrawlerUpdate | game.js:529-538 | a dead crawler does nothing; otherwise it attacks (3 particles, no damage) exactly when within 40 of the player and its 2000 ms cooldown has passed, and is flagged dead exactly when its health is at most 0 |
| Enemies.FiendUpdate | game.js:609-620 | a dead boss does nothing; otherwise its phase is raised first, it attacks exactly when its 3000 ms cooldown has passed, with exactly the `PhaseAttack` of its new phase (the stomp in phase 1, the summons or the overload burst after), and on reaching zero health it is flagged dead and drops exactly one epic weapon |
| Enemies.EnemyUpdate | game.js:136-148 | any enemy update keeps the enemy's kind, place and health, marks it dead exactly at zero health, adds only live enemies and hostile shots, and drops at most one live epic weapon |
| Players.Heading | game.js:362-370 | the movement direction follows the keys, with down beating up and right beating left, and is scaled by 0.707 on a diagonal so its length never exceeds 1 |
| Players.Player.constructor | game.js:310-342 | a new player is alive at the given corner with full health and stamina, the starting weapon and no timers running |
| Players.Player.StartDash | game.js:401-406 | starting a dash marks it running from time 0, stamps the dash time and costs 20 stamina |
| Players.Player.LightAttack | game.js:408-426 | a light attack fires one friendly shot of the weapon's damage at speed 300 from the centre toward the cursor and adds 3 particles |
| Players.Player.HeavyAttack | game.js:428-450 | a heavy attack costs 25 stamina and fires one friendly shot of double damage, size 15, at speed 400, with 8 particles |
| Players.Player.AoeAttack | game.js:452-459 | an area attack costs 30 stamina and deals 1.5 times the weapon's damage around the player's corner |
| Players.Player.UpdateStamina | game.js:469-474 | stamina regenerates at 50 per second up to 100, never while dashing, and never falls |
| Players.Player.ConstrainToCanvas | game.js:476-479 | the player's corner is clamped into the canvas shrunk by the player's size, and a position already inside is unchanged |
| Players.Player.TakeDamage | game.js:481-487 | a dashing player takes no damage at all; otherwise health falls by exactly the damage, the invulnerability stamp is set to now and 5 particles appear |
| Players.VolleyIsFriendly | game.js:408-459 | every shot the attacks fire is live and friendly with at least the weapon's damage, each shot comes with its own particle burst, and a blast is asked for exactly when the area attack fired, with at least the weapon's damage |
| Players.StepKeepsSound | game.js:343-355 | one `update` keeps the player's invariant, fires only friendly shots, never changes health, weapon or the damage stamp, reports a death exactly when a living player is at or below zero health, and keeps a living player on any canvas at least its size |
| Players.DashEnds | game.js:375-381 | a running dash given at least its remaining time ends in that step, with its timer reset and no new dash stamped |
| Players.StepSpendsAtMost | game.js:371-397 | one step spends at most 20 + 25 + 30 stamina, and with less than 20 no dash starts |
| Players.RunKeepsSound | game.js:343-355 | over any run of updates with non-negative delta times the player stays sound and its health never moves on its own |
| Players.Player.AdvanceDash | game.js:371-381 | the player's new state is exactly the dash part of `handleInput`: a dash starts only when the key is held, none is running, the 1000 ms cooldown has passed and 20 stamina remain, and it ends once it has lasted 0.2 s |
| Players.Player.Move | game.js:360-387 | the player's new state is exactly the movement part: the corner moves along the heading at 400 while dashing and 200 otherwise, for dt seconds |
| Players.Player.FireAttacks | game.js:389-399 | the player's new state and the actions are exactly the attack part: light, heavy and area attacks each fire only behind their own key, cooldown and stamina gate, the later gates checked against the stamina the earlier ones left |
| Players.Player.HandleInput | game.js:357-399 | the player's new state and the actions are exactly dash, then movement, then attacks from the moved corner |
| Players.Player.Recover | game.js:347-354 | the end of `update` leaves the player exactly as stamina regeneration, the canvas clamp and the death flag make it |
| Players.Player.Update | game.js:343-355 | the player's new state, the actions and the death report are exactly one pure `Step`: a dead player does nothing; otherwise input, stamina, clamp, and a death reported only on the first update at or below zero health; health, weapon and damage stamp untouched; every shot friendly |
| Simulation.BurstParticlesAppend | game.js:234-238 | the particles of two runs of particle bursts are those of the first run followed by those of the second |
| Simulation.TotalScoreConcat | game.js:136-148 | the score added for a sequence of removed enemies is additive over concatenation |
| Simulation.TotalDamageNonNegative | game.js:177-184 | shots that each carry non-negative damage deal non-negative damage in total |
| Simulation.TotalScoreNonNegative | game.js:139-140 | removed enemies never lower the score, and any removal raises it |
| Simulation.CollectAllBounds | game.js:203-208 | collecting any sequence of items keeps health between its old value and the cap, never weakens the weapon and adds exactly 50 points per epic weapon |
| Simulation.Game.constructor | game.js:2-25 | a new game is in the cutscene at wave 1 with no score, no entities, no timers, a frame timestamp of 0, and a fresh player at the canvas centre with full health and stamina, the starting weapon, no dash and every attack and damage stamp at 0 |
| Simulation.Game.SpawnWave | game.js:65-76 | up to the third wave a wave schedules five crawler spawns; after it, the boss is added instead |
| Simulation.Game.SpawnEnemy | game.js:78-102 | a crawler is appended just outside the chosen edge, 50 units out |
| Simulation.Game.FireSpawn | game.js:69-71 | a scheduled spawn appends exactly a fresh, living crawler at the drawn edge point and uses up one pending spawn |
| Simulation.Game.SpawnBoss | game.js:104-107 | the boss is appended at the top centre (y = 100) |
| Simulation.Game.NextWave | game.js:109-117 | the wave counter rises by one; then the next wave starts, or past the last wave the boss appears if the field is empty |
| Simulation.Game.FireNextWave | game.js:109-117 | a scheduled wave advance uses up one pending advance and does exactly what `nextWave` does: raises the counter, schedules five spawns while waves remain, or adds the boss past the last wave if the field is empty |
| Simulation.Game.CheckWaveProgress | game.js:219-227 | with the field empty, another wave advance is scheduled while waves remain (on every such frame), or the level completes after the last |
| Simulation.Game.SpawnLoot | game.js:229-232 | a dropped item is a health pickup or a weapon upgrade as the roll decides, never an epic weapon |
| Simulation.Game.CreateParticles | game.js:234-238 | exactly `count` fresh particles are appended |
| Simulation.Game.AddBursts | game.js:234-238 | the particles of several `createParticles` calls are appended in call order, each burst's in turn |
| Simulation.Game.HurtPlayer | game.js:481-487 | the player's damage intake: a dash ignores it; otherwise health falls by the damage and the stamp is set; exactly the player's hurt particles are appended |
| Simulation.VisitRemovesDead | game.js:136-148 | one visit removes nothing or exactly one enemy, which is dead, and counts a kill exactly when it removes one; the player is never healed |
| Simulation.EnemyPassRemovesDead | game.js:136-148 | the whole pass removes only dead enemies, at most one per visited index, counts one kill per removal and never heals the player |
| Simulation.VisitScores | game.js:138-140 | one visit adds to the score exactly the score value of the enemy it removes |
| Simulation.EnemyPassScores | game.js:136-148 | the whole pass adds to the score exactly the score values of the enemies it removes |
| Simulation.EnemyPassAccounts | game.js:136-148 | from the start of a frame, the pass adds one kill and the score value for each enemy it removes, and every removed enemy was dead |
| Simulation.DeadCrawlerSkipsFollower | game.js:136-148 | a dead crawler at the second-to-last index is spliced out and the crawler behind it slides into its place and is not visited in that frame |
| Simulation.ClashAt | game.js:186-201 | one enemy's collisions keep the number of enemies, change only that enemy, keep its box, kind and dead flag, and never heal the player |
| Simulation.ClashesKeep | game.js:186-202 | the enemy collisions add, remove and move no enemy, change no kind or dead flag, heal no enemy, add no projectile and never heal the player |
| Simulation.Game.ActEnemy | game.js:136-137 | `enemy.update()` at index k: the game's new arrays, health and damage stamp are exactly the pure `Act`, and the particles appended are exactly those of its bursts |
| Simulation.Game.SettleEnemy | game.js:138-147 | an enemy found dead is counted, scored, maybe drops loot and is spliced out, exactly as the pure `Settle` says; a living one stays |
| Simulation.Game.VisitEnemy | game.js:136-148 | one visit changes the game exactly as the pure `Visit` says, appending the particles of its bursts |
| Simulation.Game.PassStep | game.js:136-148 | visit k of a pass over n indices leaves exactly the rest of the pure pass to do; an index past the current end is skipped |
| Simulation.SummonAppendsTwoCrawlers | game.js:679-686 | a living boss attacking in phase 2 appends exactly two living crawlers to the enemy array, after the enemies already there |
| Simulation.FiendDeathDropsEpicLoot | game.js:617-620 | a living boss at zero health appends exactly one epic weapon, at its corner, to the loot array |
| Simulation.Game.RunEnemyPass | game.js:136-148 | the enemy loop with in-place splice leaves the game exactly as the pure `EnemyPass` over the original length says, with the particles of every burst it asked for |
| Simulation.Game.UpdateEnemies | game.js:136-148 | each enemy the pass removes was dead and adds one kill and its score value; on an empty field the pass changes nothing |
| Simulation.Game.ApplyBlast | game.js:456-466 | the area attack hurts exactly the enemies whose corner is within 100 of the player's corner, adds their hurt particles and then 20 particles at the player's centre |
| Simulation.Game.ProjectilesHitPlayer | game.js:177-184 | the hostile shots the pass finds on the player are removed, the player loses exactly their total damage unless dashing, and each hit appends the player's hurt particles |
| Simulation.Game.TakeHits | game.js:180-181 | the hits are taken in order: a dash ignores them all; otherwise health falls by their total damage and each hit appends the player's hurt particles |
| Simulation.Game.ShotsHitEnemy | game.js:187-195 | the friendly shots the pass finds on one enemy are removed, that enemy loses exactly their total damage, and each hit adds the enemy's hurt particles and 5 hit particles |
| Simulation.Game.EnemyTouchesPlayer | game.js:197-201 | an overlapping enemy deals its contact damage exactly when more than 1000 ms have passed since the player was last hit and the player is not dashing; hurt particles appear exactly when the overlap and the timer allow the call |
| Simulation.Game.ClashEnemy | game.js:186-201 | one enemy's collisions change the game exactly as the pure `ClashAt` says, appending the particles of its bursts |
| Simulation.Game.EnemyCollisions | game.js:186-202 | the enemy loop of `checkCollisions` leaves the enemies, projectiles, health and damage stamp exactly as the pure `Clashes` says, with the particles of every burst |
| Simulation.Game.CollectLoot | game.js:203-208 | every item the pass finds on the player is removed and collected in order, with 8 particles each |
| Simulation.Game.CheckCollisions | game.js:176-209 | the whole collision phase: the hostile-shot pass, then the enemy collisions from that state (including the damage stamp a shot hit just set, which blocks contact damage in the same frame), then the loot pass and its pickups; enemies, projectiles, health, stamp, weapon, score, loot and particles (including the enemy collisions' bursts) are each stated exactly |
| Simulation.Game.Collide | game.js:176-209 | the collision phase keeps the invariant and never lowers the score; with no enemy, no loot and no hostile shot it leaves the score, health, stamp and weapon alone |
| Simulation.Game.UpdateProjectiles | game.js:152-157 | the projectile pass is the forEach-with-splice pass of the projectile update, and it keeps an all-friendly array all friendly |
| Simulation.Game.UpdateParticles | game.js:159-164 | the particle pass is the forEach-with-splice pass of the particle update |
| Simulation.Game.UpdateLoot | game.js:166-171 | the loot pass removes nothing and advances every item's clock |
| Simulation.Game.PlayerStep | game.js:132-134 | the player changes exactly as its `Step`; its shots are appended; the blast hurts exactly the enemies in range; the particles are the attacks' then the blast's; a death ends the game |
| Simulation.Game.UpdatePasses | game.js:136-171 | the four update passes add one kill and the score value for each removed enemy, every one of them dead; a quiet field (no enemy, no loot, no hostile shot) stays quiet, with no removal and the player's health and stamp unchanged |
| Simulation.Game.WorldStep | game.js:136-173 | the rest of the frame counts one kill per removed (dead) enemy, adds at least their score values, and then schedules a wave advance or completes the level exactly as the wave check says; on a quiet field nothing is removed and score, health, stamp and weapon are unchanged |
| Simulation.Game.Update | game.js:131-174 | one frame keeps the invariant, counts kills and never lowers the score, kills the player exactly when its health is at 0 or below, and ends in LevelComplete if the last wave's field is empty, else GameOver on a death, else the old state; the player's position, stamina, dash and attack timers are exactly those of the player's own update with this dt; on a quiet field the whole player is exactly that update and kills and score are unchanged |
| Simulation.Game.StartGame | game.js:58-63 | starting the game enters play, starts the current wave and runs the first frame with timestamp 0: kills and score are accounted as in `Update`, the state is play, game over or level complete as that frame decides, an empty field before a remaining wave stays empty and gets exactly one wave advance scheduled, and the player has taken its own update with dt = -lastTime / 1000; from a quiet field before a remaining wave, kills and score are unchanged and the player is exactly that update |
| Simulation.RestartGame | game.js:870-875 | a new game started at once is in play at wave 1 with a timestamp of 0, an empty field, five crawler spawns and exactly one wave advance pending, score 0 and no kills, and a player that is exactly the fresh player after one update with dt 0: full health, the starting weapon, damage stamp 0 |
| Simulation.Game.Tick | game.js:119-129 | outside play a frame changes nothing; in play the timestamp is stored and the frame is updated with dt = (current - last) / 1000: the player's position, stamina, dash and timers follow the player's update with that dt, kills, score and pending wave advances are accounted as in `Update`, and the state after it is play, game over or level complete as the frame decides; on a quiet field kills and score are unchanged and the player is exactly its own update |
| Simulation.Game.Advance | game.js:122-125 | the playing branch of the frame loop: the timestamp is stored and the frame is updated with dt = (current - last) / 1000, with everything `Update` states for that dt; on a quiet field, kills, score, health, weapon and stamp are unchanged |

## Left out

- Rendering, the heads-up display, the DOM overlays and the text of `gameOver` and `levelComplete`. Only the state change is kept.
- Event listeners. Their effect is the `Input` value.
- The `requestAnimationFrame` re-scheduling. Each frame is one `Tick`.
- The global `game` singleton and the overlays `restartGame` hides. A restart is `Simulation.RestartGame`, a new `Game` started at once.
- Enemy movement (`moveTowardsPlayer`). It needs square roots and division by a distance, so enemies keep their place in the model.
- The area attack's knockback. It needs `atan2`, `cos` and `sin`.
- The aiming angle. `Math.atan2` of the cursor offset is given as the unit direction `(aimX, aimY)` in `Input`.
- The boss's summon and overload directions are exact (cos pi is taken as -1, sin pi as 0, cos 45 degrees as the double 0.7071067811865476). The source's floating-point rounding of these is not modelled.
- Floating point in general. All quantities are exact reals.
- The loot item's vertical bob (`y += sin(time * 3 + offset) * 0.5`). It needs `sin`, so a loot item's y never changes in the model.
- Particle velocity, size and colour. Only a particle's life and death are modelled.
- Projectile and particle colours, and the loot colour lookup.
- The `this.player` null guards. The player always exists once a `Game` is constructed.
- The `scoreValue || 10` fallback. Both enemy kinds have a nonzero score value, so it is never taken.
- `Date.now()` is read once per frame, as `now`, instead of at each call.
- Enemies, projectiles, loot items and particles are values, not objects. No two array slots share an object in the source, so no aliasing is lost.
- Collision passes run in two steps: the splice pass, then the hits applied in order. This gives the same final state, because a hit touches only the player, the enemy being checked and the particle array.
- `setTimeout` delays (2000 ms for wave advances, staggered crawler spawns) are not timed. The scheduled calls are counted and fired explicitly.
- Simulation.Game.Advance: requires currentTime >= lastTime, as `Tick` does, and states what `Update` states, not the final entity arrays.
- Simulation.Game.Tick: requires currentTime >= lastTime, because animation-frame timestamps never decrease. The source does not check this.
- Players.Player.UpdateStamina: requires dt >= 0, which the same monotone timestamps give.
- Players.Player.Update, Players.Player.HandleInput, Players.Player.AdvanceDash, Players.Player.Recover, Players.StepKeepsSound, Players.StepSpendsAtMost, Players.RunKeepsSound, Simulation.Game.PlayerStep and Simulation.Game.Update: require dt >= 0 for the same reason; `Tick` computes dt from timestamps that never decrease.
- Players.Player.TakeDamage: requires damage >= 0. Every caller passes a positive constant or a projectile's non-negative damage.
- Simulation.Game.UpdateEnemies: states only the accounting. The exact new state (survivors in order, summons, shots, loot, health) is the contract of `Simulation.Game.RunEnemyPass`, which it calls.
- Entities.NewParticles: all particles of one call share one decay rate. The source draws a fresh rate per particle (game.js:838); what is proved about particle life needs only decay >= 1, which every drawn rate meets.
- Simulation.Game.CreateParticles: the same shared decay rate; every particle-creating method of the game takes one `decay` for the whole call.
- Simulation.Game.Collide: states only the invariant and the score bound. It is the form of `Simulation.Game.CheckCollisions` that the rest of the frame uses; the exact collision result is `CheckCollisions`'s contract.
- Simulation.Game.UpdatePasses: states only the accounting of the enemy pass. The exact results are the contracts of `RunEnemyPass`, `UpdateProjectiles`, `UpdateParticles` and `UpdateLoot`.
- Simulation.Game.WorldStep: states the accounting and the wave check, not the final entity arrays. Each phase's exact result is stated by the method for that phase, and the composition of all of them is not restated.
- Simulation.Game.Update: states the invariant, the accounting, the death, the final game state and the player's own update, not the final entity arrays or the player's health, damage stamp and weapon after the collisions. Those are given phase by phase by `PlayerStep` and the methods `WorldStep` calls.
- Simulation.Game.Tick: states what `Update` states, under play, and so not the final entity arrays or the player's health, damage stamp and weapon after the collisions.
- Simulation.Game.StartGame: states what `Tick` states for the first frame, and so not the final projectile and particle arrays or, on a field that is not quiet, the player's health, damage stamp and weapon after the collisions.
- Simulation.RestartGame: states the counters, the pending timers, the empty field and the whole player, not the projectile and particle arrays after the first frame (the player's own attacks may add to them).
- Simulation.Game.StartGame: requires lastTime <= 0, as the constructor leaves it. `startGame` runs from the intro cutscene, before any frame, so the first frame's delta time is never negative.
- Players.Player.Recover: requires a living player. `update` reaches this code only after returning early for a dead player.
