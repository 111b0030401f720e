/** The game: owner of the player and of the enemy, projectile, particle and loot arrays, the
    score, the wave counter and the game state. `Update` is one frame of `Game.update`; `Tick`
    is one call of the frame loop. Timers the source starts with setTimeout are counted in
    `pendingSpawns` and `pendingWaveAdvances` and fire through explicit calls. */
module Simulation {
  import opened Geometry
  import opened Entities
  import opened Enemies
  import opened Players
  import Sweep

  datatype GameState = Cutscene | Playing | Paused | GameOver | LevelComplete

  /** The canvas edge a wave enemy enters from. */
  datatype Side = Top | Right | Bottom | Left

  /** The two random draws behind a loot drop: below 0.3 an item drops, and below 0.8 the
      dropped item is a health pickup, otherwise a weapon upgrade. */
  datatype LootRoll = LootRoll(drop: real, kind: real)

  const MaxWaves: int := 3
  const EnemiesPerWave: nat := 5
  /** Wave enemies appear this far outside the canvas edge. */
  const SpawnOffset: real := 50.0
  const BossY: real := 100.0
  const DropChance: real := 0.3
  const HealthShare: real := 0.8

  /** Where `spawnEnemy` puts a crawler: outside the given edge, at fraction t along it. */
  function SpawnPoint(side: Side, t: real, width: real, height: real): (real, real)
  {
    match side
    case Top => (t * width, -SpawnOffset)
    case Right => (width + SpawnOffset, t * height)
    case Bottom => (t * width, height + SpawnOffset)
    case Left => (-SpawnOffset, t * height)
  }

  /** The kind of item `spawnLoot` creates for a roll. */
  function RolledKind(roll: LootRoll): LootKind
  {
    if roll.kind < HealthShare then Health else WeaponUpgrade
  }

  /** All particles of a sequence of bursts, in order. */
  function BurstParticles(bs: seq<Burst>, decay: real): (r: seq<Particle>)
    ensures forall p :: p in r ==> !p.isDead && p.life == 1.0
  {
    if bs == [] then []
    else NewParticles(bs[0].x, bs[0].y, bs[0].count, decay) + BurstParticles(bs[1..], decay)
  }

  /** The particles of two runs of bursts are those of each, in order. */
  lemma {:induction false} BurstParticlesAppend(a: seq<Burst>, b: seq<Burst>, decay: real)
    ensures BurstParticles(a + b, decay) == BurstParticles(a, decay) + BurstParticles(b, decay)
    decreases |a|
  {
    if a == [] {
      assert a + b == b;
    } else {
      assert (a + b)[0] == a[0];
      assert (a + b)[1..] == a[1..] + b;
      BurstParticlesAppend(a[1..], b, decay);
    }
  }

  /** n runs of the same bursts. */
  function Repeat(bs: seq<Burst>, n: nat): (r: seq<Burst>)
    ensures |r| == n * |bs|
  {
    if n == 0 then [] else Repeat(bs, n - 1) + bs
  }

  /** The score the game adds for the removed enemies (`scoreValue || 10`; both kinds have a
      nonzero score value). */
  function TotalScore(es: seq<Enemy>): int
  {
    if es == [] then 0 else TotalScore(es[..|es| - 1]) + ScoreValue(es[|es| - 1].kind)
  }

  /** Scores add up over concatenation. */
  lemma {:induction false} TotalScoreConcat(a: seq<Enemy>, b: seq<Enemy>)
    ensures TotalScore(a + b) == TotalScore(a) + TotalScore(b)
    decreases |b|
  {
    if b != [] {
      var b' := b[..|b| - 1];
      assert (a + b)[..|a + b| - 1] == a + b';
      TotalScoreConcat(a, b');
    } else {
      assert a + b == a;
    }
  }

  function TotalDamage(ps: seq<Projectile>): real
  {
    if ps == [] then 0.0 else TotalDamage(ps[..|ps| - 1]) + ps[|ps| - 1].damage
  }

  /** A hostile projectile overlapping the player's box; a friendly one overlapping an enemy's. */
  predicate HitsPlayer(box: Box, p: Projectile) { !p.friendly && Collides(ProjectileBox(p), box) }
  predicate HitsEnemy(box: Box, p: Projectile) { p.friendly && Collides(ProjectileBox(p), box) }
  predicate Touches(box: Box, l: LootItem) { Collides(LootBox(l), box) }

  /** Collision passes do not update the elements they visit. */
  function KeepShot(box: Box, p: Projectile): Projectile { p }
  function KeepLoot(box: Box, l: LootItem): LootItem { l }

  predicate NonNegative(p: Projectile) { p.damage >= 0.0 }
  predicate Friendly(p: Projectile) { p.friendly }

  predicate InBlast(e: Enemy, b: Blast) { DistSq(e.x, e.y, b.x, b.y) < AoeRadius * AoeRadius }

  /** Particles the area attack adds at the player's centre, a projectile adds where it hits an
      enemy, and a collected item adds where it lay. */
  const BlastParticles: nat := 20
  const HitParticles: nat := 5
  const PickupParticles: nat := 8

  /** Total damage is never negative when no projectile carries negative damage. */
  lemma {:induction false} TotalDamageNonNegative(ps: seq<Projectile>)
    requires forall p :: p in ps ==> NonNegative(p)
    ensures TotalDamage(ps) >= 0.0
    decreases |ps|
  {
    if ps != [] {
      var init := ps[..|ps| - 1];
      assert forall p :: p in init ==> p in ps;
      TotalDamageNonNegative(init);
      assert ps[|ps| - 1] in ps;
    }
  }

  /** Every enemy is worth a positive score, so removed enemies never lower the score. */
  lemma {:induction false} TotalScoreNonNegative(es: seq<Enemy>)
    ensures TotalScore(es) >= 0
    ensures es != [] ==> TotalScore(es) > 0
    decreases |es|
  {
    if es != [] {
      TotalScoreNonNegative(es[..|es| - 1]);
    }
  }

  /** An enemy after the area attack: hurt by the blast's damage when its corner lies within the
      radius of the player's corner, otherwise left alone. */
  function Blasted(e: Enemy, b: Blast): Enemy
  {
    if InBlast(e, b) then Hurt(e, b.damage) else e
  }

  /** The hurt particles of the enemies the blast reaches, in array order. */
  function BlastBursts(es: seq<Enemy>, b: Blast): seq<Burst>
  {
    if es == [] then []
    else BlastBursts(es[..|es| - 1], b) + (if InBlast(es[|es| - 1], b) then [HurtBurst(es[|es| - 1])] else [])
  }

  /** For each projectile that hits enemy e: the enemy's hurt particles, then the hit particles. */
  function HitBursts(e: Enemy, hits: seq<Projectile>): seq<Burst>
  {
    if hits == [] then []
    else HitBursts(e, hits[..|hits| - 1]) + [HurtBurst(e), Burst(hits[|hits| - 1].x, hits[|hits| - 1].y, HitParticles)]
  }

  /** The particles collected items leave where they lay. */
  function PickupBursts(items: seq<LootItem>): seq<Burst>
  {
    if items == [] then []
    else PickupBursts(items[..|items| - 1]) + [Burst(items[|items| - 1].x, items[|items| - 1].y, PickupParticles)]
  }

  /** The player's health and weapon and the score after collecting the items in order. */
  function CollectAll(items: seq<LootItem>, health: real, weapon: Weapon, score: int): Reward
  {
    if items == [] then Reward(health, weapon, score)
    else
      var r := CollectAll(items[..|items| - 1], health, weapon, score);
      Collect(items[|items| - 1].kind, r.health, PlayerMaxHealth, r.weapon, r.score)
  }

  function EpicCount(items: seq<LootItem>): nat
  {
    if items == [] then 0
    else EpicCount(items[..|items| - 1]) + (if items[|items| - 1].kind == EpicWeapon then 1 else 0)
  }

  /** Collecting any items keeps health between its old value and the cap, never weakens the
      weapon, and adds exactly 50 to the score per epic weapon. */
  lemma {:induction false} CollectAllBounds(items: seq<LootItem>, health: real, weapon: Weapon, score: int)
    requires health <= PlayerMaxHealth
    ensures var r := CollectAll(items, health, weapon, score);
            health <= r.health <= PlayerMaxHealth && r.weapon.damage >= weapon.damage &&
            r.score == score + EpicScore * EpicCount(items)
    decreases |items|
  {
    if items != [] {
      var init := items[..|items| - 1];
      CollectAllBounds(init, health, weapon, score);
      var r := CollectAll(init, health, weapon, score);
      CollectKeepsBounds(items[|items| - 1].kind, r.health, PlayerMaxHealth, r.weapon, r.score);
    }
  }

  /** Concatenation is associative. */
  lemma ConcatAssoc<T>(a: seq<T>, b: seq<T>, c: seq<T>)
    ensures a + (b + c) == a + b + c
  {
  }

  /** What the enemy pass reads and never changes: the player's corner and dash state, and the
      clock. */
  datatype Scene = Scene(px: real, py: real, dashing: bool, now: int)

  /** What the enemy pass changes: the enemy, projectile and loot arrays, the player's health and
      damage stamp, the score and the kill count, and, so far, the particle bursts it asked for
      and the enemies it removed. */
  datatype World = World(enemies: seq<Enemy>, projectiles: seq<Projectile>, loot: seq<LootItem>,
                         health: real, lastDamageTime: int, score: int, kills: int,
                         bursts: seq<Burst>, removed: seq<Enemy>)

  /** The enemy at index k updates: it is stored back, its shots join the projectiles, its
      particles and its own loot are added, a stomp hurts the player (ignored while dashing) and
      the enemies it summons are pushed onto the array. */
  function Act(sc: Scene, w: World, k: nat): World
    requires k < |w.enemies|
  {
    var o := EnemyUpdate(w.enemies[k], sc.px, sc.py, sc.now);
    var hurt := o.stomp && !sc.dashing;
    w.(enemies := w.enemies[k := o.enemy] + o.summons,
       projectiles := w.projectiles + o.shots,
       loot := w.loot + o.drops,
       health := if hurt then w.health - ContactDamage(AmpFiend(1)) else w.health,
       lastDamageTime := if hurt then sc.now else w.lastDamageTime,
       bursts := w.bursts + o.bursts + (if o.stomp then HurtBursts(sc.dashing, sc.px, sc.py) else []))
  }

  /** An enemy found dead at index k is counted, scored, spliced out and removed, and drops a
      health pickup or a weapon upgrade where it stood when the roll for k is below 0.3; a living
      one stays. */
  function Settle(rolls: nat -> LootRoll, w: World, k: nat): World
    requires k < |w.enemies|
  {
    var e := w.enemies[k];
    if !e.isDead then w
    else
      w.(enemies := w.enemies[..k] + w.enemies[k + 1..],
         score := w.score + ScoreValue(e.kind), kills := w.kills + 1,
         loot := if rolls(k).drop < DropChance then w.loot + [NewLoot(e.x, e.y, RolledKind(rolls(k)))] else w.loot,
         removed := w.removed + [e])
  }

  /** One visit of the enemy pass, at index k: the enemy's update, then its removal if dead. */
  function Visit(sc: Scene, rolls: nat -> LootRoll, w: World, k: nat): World
    requires k < |w.enemies|
  {
    Settle(rolls, Act(sc, w, k), k)
  }

  /** The enemy pass from index k up to n, the length the array had when the pass began: an
      index past the current end is skipped, so after a removal the enemy that slid into the
      removed one's place is not visited in this frame. */
  function EnemyPass(sc: Scene, rolls: nat -> LootRoll, w: World, k: nat, n: nat): World
    decreases n - k
  {
    if k >= n then w
    else EnemyPass(sc, rolls, if k < |w.enemies| then Visit(sc, rolls, w, k) else w, k + 1, n)
  }

  /** A visit removes at most one enemy, only a dead one, and counts one kill for it; it never
      heals the player. */
  lemma VisitRemovesDead(sc: Scene, rolls: nat -> LootRoll, w: World, k: nat)
    requires k < |w.enemies|
    ensures var v := Visit(sc, rolls, w, k);
            (v.removed == w.removed && v.kills == w.kills) ||
            (|v.removed| == |w.removed| + 1 && v.removed == w.removed + [v.removed[|w.removed|]] &&
             v.removed[|w.removed|].isDead && v.kills == w.kills + 1)
    ensures Visit(sc, rolls, w, k).health <= w.health
  {
  }

  /** The pass removes only enemies found dead, at most one per visited index, and counts one
      kill for each; it never heals the player. */
  lemma {:induction false} EnemyPassRemovesDead(sc: Scene, rolls: nat -> LootRoll, w: World, k: nat, n: nat)
    requires k <= n
    requires forall e :: e in w.removed ==> e.isDead
    ensures var r := EnemyPass(sc, rolls, w, k, n);
            (forall e :: e in r.removed ==> e.isDead) &&
            |w.removed| <= |r.removed| <= |w.removed| + (n - k) &&
            r.kills - |r.removed| == w.kills - |w.removed| &&
            r.health <= w.health
    decreases n - k
  {
    if k < n {
      var w' := if k < |w.enemies| then Visit(sc, rolls, w, k) else w;
      if k < |w.enemies| {
        VisitRemovesDead(sc, rolls, w, k);
      }
      assert forall e :: e in w'.removed ==> e.isDead;
      EnemyPassRemovesDead(sc, rolls, w', k + 1, n);
    }
  }

  /** A visit adds to the score the score value of the enemy it removes, if any. */
  lemma VisitScores(sc: Scene, rolls: nat -> LootRoll, w: World, k: nat)
    requires k < |w.enemies|
    ensures var v := Visit(sc, rolls, w, k);
            v.score - TotalScore(v.removed) == w.score - TotalScore(w.removed)
  {
    var a := Act(sc, w, k);
    if a.enemies[k].isDead {
      assert (w.removed + [a.enemies[k]])[..|w.removed|] == w.removed;
    }
  }

  /** The pass adds to the score exactly the score values of the enemies it removes. */
  lemma {:induction false} EnemyPassScores(sc: Scene, rolls: nat -> LootRoll, w: World, k: nat, n: nat)
    ensures var r := EnemyPass(sc, rolls, w, k, n);
            r.score - TotalScore(r.removed) == w.score - TotalScore(w.removed)
    decreases n - k
  {
    if k < n {
      var w' := if k < |w.enemies| then Visit(sc, rolls, w, k) else w;
      if k < |w.enemies| {
        VisitScores(sc, rolls, w, k);
      }
      EnemyPassScores(sc, rolls, w', k + 1, n);
    }
  }

  /** What a whole pass from the start accounts for: it removes only dead enemies, one kill and
      their score value for each. */
  lemma EnemyPassAccounts(sc: Scene, rolls: nat -> LootRoll, w: World, n: nat)
    requires w.removed == []
    ensures var r := EnemyPass(sc, rolls, w, 0, n);
            r.kills == w.kills + |r.removed| && r.score == w.score + TotalScore(r.removed) &&
            forall e :: e in r.removed ==> e.isDead
  {
    EnemyPassRemovesDead(sc, rolls, w, 0, n);
    EnemyPassScores(sc, rolls, w, 0, n);
  }

  /** A crawler found dead is removed and the crawler behind it slides into its place; with the
      pass ending there, that follower comes out of the frame exactly as it went in. */
  lemma DeadCrawlerSkipsFollower(sc: Scene, rolls: nat -> LootRoll, w: World, k: nat)
    requires |w.enemies| == k + 2
    requires w.enemies[k].kind == StreetCrawler && w.enemies[k].health <= 0.0
    ensures var r := EnemyPass(sc, rolls, w, k, k + 2);
            r.enemies == w.enemies[..k] + [w.enemies[k + 1]] && |r.removed| == |w.removed| + 1
  {
    var v := Visit(sc, rolls, w, k);
    assert v.enemies == w.enemies[..k] + [w.enemies[k + 1]];
    assert EnemyPass(sc, rolls, w, k, k + 2) == EnemyPass(sc, rolls, v, k + 1, k + 2);
  }

  /** A living boss that attacks in phase 2 during the pass appends exactly two living crawlers
      to the enemy array, after the enemies already there. */
  lemma SummonAppendsTwoCrawlers(sc: Scene, w: World, k: nat)
    requires k < |w.enemies|
    requires var e := w.enemies[k];
             e.kind.AmpFiend? && !e.isDead && Ready(sc.now, e.lastAttackTime, AttackCooldown(e.kind)) &&
             NextPhase(e.kind.phase, e.health) == 2
    ensures var a := Act(sc, w, k);
            |a.enemies| == |w.enemies| + 2 &&
            a.enemies[..|w.enemies|] == w.enemies[k := EnemyUpdate(w.enemies[k], sc.px, sc.py, sc.now).enemy] &&
            a.enemies[|w.enemies|].kind == StreetCrawler && !a.enemies[|w.enemies|].isDead &&
            a.enemies[|w.enemies| + 1].kind == StreetCrawler && !a.enemies[|w.enemies| + 1].isDead
  {
    var o := EnemyUpdate(w.enemies[k], sc.px, sc.py, sc.now);
    assert o == FiendUpdate(w.enemies[k], sc.px, sc.py, sc.now);
    assert |o.summons| == SummonCount && o.summons[0] in o.summons && o.summons[1] in o.summons;
  }

  /** A living boss whose health has reached 0 appends exactly one epic weapon, where it stands,
      to the loot array during the pass. */
  lemma FiendDeathDropsEpicLoot(sc: Scene, w: World, k: nat)
    requires k < |w.enemies|
    requires var e := w.enemies[k]; e.kind.AmpFiend? && !e.isDead && e.health <= 0.0
    ensures Act(sc, w, k).loot == w.loot + [NewLoot(w.enemies[k].x, w.enemies[k].y, EpicWeapon)]
  {
    var o := EnemyUpdate(w.enemies[k], sc.px, sc.py, sc.now);
    assert o == FiendUpdate(w.enemies[k], sc.px, sc.py, sc.now);
  }

  /** What the enemy collisions change: the enemy and projectile arrays, the player's health and
      damage stamp, and the particle bursts asked for so far. */
  datatype Clash = Clash(enemies: seq<Enemy>, projectiles: seq<Projectile>, health: real,
                         lastDamageTime: int, bursts: seq<Burst>)

  /** The collisions of the enemy at index i: the friendly shots the pass finds on it are spliced
      out and hurt it, each leaving its hurt and hit particles; then, if it overlaps the player
      and the player was last hit more than a second ago, it deals its contact damage, which a
      dash ignores. Only that enemy changes, and it keeps its box, kind and dead flag. */
  function ClashAt(sc: Scene, c: Clash, i: nat): (r: Clash)
    requires i < |c.enemies|
    ensures |r.enemies| == |c.enemies|
    ensures forall j :: 0 <= j < |c.enemies| && j != i ==> r.enemies[j] == c.enemies[j]
    ensures EnemyBox(r.enemies[i]) == EnemyBox(c.enemies[i]) && r.enemies[i].kind == c.enemies[i].kind &&
            r.enemies[i].isDead == c.enemies[i].isDead
    ensures r.health <= c.health
  {
    var e := c.enemies[i];
    var (kept, hits) := Sweep.Sweep(EnemyBox(e), c.projectiles, KeepShot, HitsEnemy);
    var touch := Collides(EnemyBox(e), Box(sc.px, sc.py, PlayerSize, PlayerSize)) &&
                 Ready(sc.now, c.lastDamageTime, InvulnerabilityMs);
    var hit := touch && !sc.dashing;
    Clash(c.enemies[i := Hurt(e, TotalDamage(hits))], kept,
          if hit then c.health - ContactDamage(e.kind) else c.health,
          if hit then sc.now else c.lastDamageTime,
          c.bursts + HitBursts(e, hits) + (if touch then HurtBursts(sc.dashing, sc.px, sc.py) else []))
  }

  /** The enemy collisions from index i to the end of the array, one enemy after the other. */
  function Clashes(sc: Scene, c: Clash, i: nat): Clash
    decreases |c.enemies| - i
  {
    if i >= |c.enemies| then c else Clashes(sc, ClashAt(sc, c, i), i + 1)
  }

  /** The enemy collisions add, remove and move no enemy, change no enemy's kind or dead flag,
      heal none, add no projectile and never heal the player. */
  lemma {:induction false} ClashesKeep(sc: Scene, c: Clash, i: nat)
    requires forall p :: p in c.projectiles ==> NonNegative(p)
    ensures var r := Clashes(sc, c, i);
            |r.enemies| == |c.enemies| &&
            (forall j :: 0 <= j < |c.enemies| ==>
               EnemyBox(r.enemies[j]) == EnemyBox(c.enemies[j]) && r.enemies[j].kind == c.enemies[j].kind &&
               r.enemies[j].isDead == c.enemies[j].isDead && r.enemies[j].health <= c.enemies[j].health) &&
            (forall p :: p in r.projectiles ==> p in c.projectiles) &&
            r.health <= c.health
    decreases |c.enemies| - i
  {
    if i < |c.enemies| {
      var c' := ClashAt(sc, c, i);
      var e := c.enemies[i];
      var (kept, hits) := Sweep.Sweep(EnemyBox(e), c.projectiles, KeepShot, HitsEnemy);
      Sweep.IdentitySweepKeeps(EnemyBox(e), c.projectiles, KeepShot, HitsEnemy);
      TotalDamageNonNegative(hits);
      assert c'.enemies[i].health <= e.health;
      ClashesKeep(sc, c', i + 1);
    }
  }

  class Game {
    const width: real
    const height: real
    const player: Player
    var state: GameState
    var currentWave: int
    var score: int
    var enemiesKilled: nat
    var enemies: seq<Enemy>
    var projectiles: seq<Projectile>
    var particles: seq<Particle>
    var loot: seq<LootItem>
    /** The frame loop's previous timestamp, in milliseconds. */
    var lastTime: real
    /** Crawler spawns scheduled by `spawnWave` and not yet fired. */
    var pendingSpawns: nat
    /** `nextWave` calls scheduled by `checkWaveProgress` and not yet fired. */
    var pendingWaveAdvances: nat

    /** The player's invariant holds, no projectile carries negative damage and no loot item is
        marked dead (nothing in the game ever marks one). */
    ghost predicate Valid()
      reads this, player
    {
      player.Valid() && (forall p :: p in projectiles ==> NonNegative(p)) &&
      (forall l :: l in loot ==> !l.isDead)
    }

    /** No enemy, no loot and no hostile projectile: nothing on the field can hurt the player,
        be killed or be picked up. */
    ghost predicate Quiet()
      reads this`enemies, this`loot, this`projectiles
    {
      enemies == [] && loot == [] && forall p :: p in projectiles ==> p.friendly
    }

    /** `new Game()` with `initializeGame`: a fresh player at the canvas centre, in the cutscene. */
    constructor (canvasWidth: real, canvasHeight: real)
      ensures Valid() && fresh(player)
      ensures width == canvasWidth && height == canvasHeight
      ensures player.x == canvasWidth / 2.0 && player.y == canvasHeight / 2.0
      ensures player.health == PlayerMaxHealth && player.stamina == MaxStamina && !player.isDead
      ensures player.weapon == StartingWeapon && !player.isDashing && player.lastDashTime == 0
      ensures player.lastAttackTime == 0 && player.lastHeavyAttackTime == 0
      ensures player.lastAoeTime == 0 && player.lastDamageTime == 0
      ensures state == Cutscene && currentWave == 1 && score == 0 && enemiesKilled == 0
      ensures enemies == [] && projectiles == [] && particles == [] && loot == []
      ensures pendingSpawns == 0 && pendingWaveAdvances == 0 && lastTime == 0.0
    {
      width, height := canvasWidth, canvasHeight;
      player := new Player(canvasWidth / 2.0, canvasHeight / 2.0);
      state := Cutscene;
      currentWave, score, enemiesKilled := 1, 0, 0;
      enemies, projectiles, particles, loot := [], [], [], [];
      lastTime := 0.0;
      pendingSpawns, pendingWaveAdvances := 0, 0;
    }

    // ------------------------------------------------------------ spawning and waves

    /** `spawnWave`: up to the last wave, schedule five crawler spawns; after it, add the boss. */
    method SpawnWave()
      modifies this`pendingSpawns, this`enemies
      ensures currentWave <= MaxWaves ==> pendingSpawns == old(pendingSpawns) + EnemiesPerWave && enemies == old(enemies)
      ensures currentWave > MaxWaves ==> pendingSpawns == old(pendingSpawns) &&
                                         enemies == old(enemies) + [NewAmpFiend(width / 2.0, BossY)]
    {
      if currentWave <= MaxWaves {
        pendingSpawns := pendingSpawns + EnemiesPerWave;
      } else {
        SpawnBoss();
      }
    }

    /** `spawnEnemy`: one crawler just outside the chosen edge. */
    method SpawnEnemy(side: Side, t: real)
      modifies this`enemies
      ensures var (x, y) := SpawnPoint(side, t, width, height);
              enemies == old(enemies) + [NewStreetCrawler(x, y)]
    {
      var (x, y) := SpawnPoint(side, t, width, height);
      enemies := enemies + [NewStreetCrawler(x, y)];
    }

    /** One scheduled spawn fires. */
    method FireSpawn(side: Side, t: real)
      requires pendingSpawns > 0
      modifies this`enemies, this`pendingSpawns
      ensures pendingSpawns == old(pendingSpawns) - 1
      ensures |enemies| == |old(enemies)| + 1 && enemies[..|old(enemies)|] == old(enemies)
      ensures enemies[|old(enemies)|].kind == StreetCrawler
      ensures var (x, y) := SpawnPoint(side, t, width, height);
              enemies == old(enemies) + [NewStreetCrawler(x, y)]
    {
      pendingSpawns := pendingSpawns - 1;
      SpawnEnemy(side, t);
    }

    /** `spawnBoss`: the AmpFiend at the top centre of the canvas. */
    method SpawnBoss()
      modifies this`enemies
      ensures enemies == old(enemies) + [NewAmpFiend(width / 2.0, BossY)]
    {
      enemies := enemies + [NewAmpFiend(width / 2.0, BossY)];
    }

    /** `nextWave`: advance the counter; start the next wave, or add the boss once the waves are
        over and the field is empty. */
    method NextWave()
      modifies this`currentWave, this`pendingSpawns, this`enemies
      ensures currentWave == old(currentWave) + 1
      ensures currentWave <= MaxWaves ==> pendingSpawns == old(pendingSpawns) + EnemiesPerWave &&
                                          enemies == old(enemies)
      ensures currentWave > MaxWaves && old(enemies) == [] ==>
                enemies == [NewAmpFiend(width / 2.0, BossY)] && pendingSpawns == old(pendingSpawns)
      ensures currentWave > MaxWaves && old(enemies) != [] ==>
                enemies == old(enemies) && pendingSpawns == old(pendingSpawns)
    {
      currentWave := currentWave + 1;
      if currentWave <= MaxWaves {
        SpawnWave();
      } else if |enemies| == 0 {
        SpawnBoss();
      }
    }

    /** One scheduled `nextWave` fires. */
    method FireNextWave()
      requires pendingWaveAdvances > 0
      modifies this`pendingWaveAdvances, this`currentWave, this`pendingSpawns, this`enemies
      ensures pendingWaveAdvances == old(pendingWaveAdvances) - 1
      ensures currentWave == old(currentWave) + 1
      ensures old(currentWave) == MaxWaves && old(enemies) == [] ==> enemies == [NewAmpFiend(width / 2.0, BossY)]
      ensures currentWave <= MaxWaves ==> pendingSpawns == old(pendingSpawns) + EnemiesPerWave &&
                                          enemies == old(enemies)
      ensures currentWave > MaxWaves && old(enemies) == [] ==>
                enemies == [NewAmpFiend(width / 2.0, BossY)] && pendingSpawns == old(pendingSpawns)
      ensures currentWave > MaxWaves && old(enemies) != [] ==>
                enemies == old(enemies) && pendingSpawns == old(pendingSpawns)
    {
      pendingWaveAdvances := pendingWaveAdvances - 1;
      NextWave();
    }

    /** `checkWaveProgress`: with the field empty, schedule another `nextWave` while waves remain
        (again on every frame until one fires), or finish the level once they are over. */
    method CheckWaveProgress()
      modifies this`pendingWaveAdvances, this`state
      ensures enemies == [] && currentWave <= MaxWaves ==>
                pendingWaveAdvances == old(pendingWaveAdvances) + 1 && state == old(state)
      ensures enemies == [] && currentWave > MaxWaves ==>
                state == LevelComplete && pendingWaveAdvances == old(pendingWaveAdvances)
      ensures enemies != [] ==> state == old(state) && pendingWaveAdvances == old(pendingWaveAdvances)
    {
      if |enemies| == 0 && currentWave <= MaxWaves {
        pendingWaveAdvances := pendingWaveAdvances + 1;
      } else if |enemies| == 0 && currentWave > MaxWaves {
        state := LevelComplete;
      }
    }

    /** `spawnLoot`: a health pickup or a weapon upgrade at (x, y), as the roll decides. */
    method SpawnLoot(x: real, y: real, roll: LootRoll)
      modifies this`loot
      ensures loot == old(loot) + [NewLoot(x, y, RolledKind(roll))]
      ensures loot[|old(loot)|].kind != EpicWeapon
    {
      loot := loot + [NewLoot(x, y, RolledKind(roll))];
    }

    /** `createParticles`: `count` fresh particles at (x, y). */
    method CreateParticles(x: real, y: real, count: nat, decay: real)
      modifies this`particles
      ensures particles == old(particles) + NewParticles(x, y, count, decay)
      ensures |particles| == |old(particles)| + count
    {
      particles := particles + NewParticles(x, y, count, decay);
    }

    /** `createParticles` once per burst, in order. */
    method AddBursts(bs: seq<Burst>, decay: real)
      modifies this`particles
      ensures particles == old(particles) + BurstParticles(bs, decay)
    {
      particles := particles + BurstParticles(bs, decay);
    }

    /** The player's `takeDamage` together with the particles it creates. */
    method HurtPlayer(damage: real, now: int, decay: real)
      requires Valid() && damage >= 0.0
      modifies player`health, player`lastDamageTime, this`particles
      ensures Valid()
      ensures player.isDashing ==> player.health == old(player.health) &&
                                   player.lastDamageTime == old(player.lastDamageTime)
      ensures !player.isDashing ==> player.health == old(player.health) - damage &&
                                    player.lastDamageTime == now
      ensures particles == old(particles) + BurstParticles(HurtBursts(player.isDashing, player.x, player.y), decay)
    {
      var bs := player.TakeDamage(damage, now);
      AddBursts(bs, decay);
    }

    // ------------------------------------------------------------ the update passes

    /** The state the enemy pass changes, with the bursts and removals gathered so far. */
    ghost function Capture(bursts: seq<Burst>, removed: seq<Enemy>): World
      reads this, player
    {
      World(enemies, projectiles, loot, player.health, player.lastDamageTime, score, enemiesKilled, bursts, removed)
    }

    /** What the enemy pass reads from the player and the clock. */
    ghost function SceneAt(now: int): Scene
      reads player
    {
      Scene(player.x, player.y, player.isDashing, now)
    }

    /** `enemy.update()` for the enemy at index k, with everything the update adds to the game;
        the bursts it asks for are appended to those gathered so far. */
    method ActEnemy(k: nat, now: int, decay: real, ghost bursts: seq<Burst>, ghost removed: seq<Enemy>,
                    ghost p0: seq<Particle>) returns (ghost bursts': seq<Burst>)
      requires Valid() && k < |enemies| && particles == p0 + BurstParticles(bursts, decay)
      modifies this`enemies, this`projectiles, this`particles, this`loot
      modifies player`health, player`lastDamageTime
      ensures Valid()
      ensures Capture(bursts', removed) == Act(SceneAt(now), old(Capture(bursts, removed)), k)
      ensures particles == p0 + BurstParticles(bursts', decay)
    {
      ghost var a := Act(SceneAt(now), Capture(bursts, removed), k);
      var o := EnemyUpdate(enemies[k], player.x, player.y, now);
      ghost var hb := if o.stomp then HurtBursts(player.isDashing, player.x, player.y) else [];
      bursts' := bursts + o.bursts + hb;
      assert a.bursts == bursts';
      projectiles := projectiles + o.shots;
      BurstParticlesAppend(bursts, o.bursts, decay);
      AddBursts(o.bursts, decay);
      loot := loot + o.drops;
      BurstParticlesAppend(bursts + o.bursts, hb, decay);
      if o.stomp {
        HurtPlayer(ContactDamage(AmpFiend(1)), now, decay);
      } else {
        assert particles + [] == particles;
      }
      enemies := enemies[k := o.enemy] + o.summons;
      assert particles == p0 + BurstParticles(bursts', decay) by {
        ghost var pb, po, ph := BurstParticles(bursts, decay), BurstParticles(o.bursts, decay), BurstParticles(hb, decay);
        assert particles == p0 + pb + po + ph;
        assert BurstParticles(bursts', decay) == pb + po + ph;
        ConcatAssoc(p0, pb + po, ph);
        ConcatAssoc(p0, pb, po);
      }
      assert enemies == a.enemies && projectiles == a.projectiles && loot == a.loot;
      assert player.health == a.health && player.lastDamageTime == a.lastDamageTime;
    }

    /** The rest of a visit: an enemy the update left dead is counted, scored, maybe drops loot,
        and is spliced out of the array. */
    method SettleEnemy(k: nat, rolls: nat -> LootRoll, ghost bursts: seq<Burst>, ghost removed: seq<Enemy>)
      returns (ghost removed': seq<Enemy>)
      requires Valid() && k < |enemies|
      modifies this`enemies, this`loot, this`score, this`enemiesKilled
      ensures Valid()
      ensures Capture(bursts, removed') == Settle(rolls, old(Capture(bursts, removed)), k)
    {
      var e := enemies[k];
      if e.isDead {
        enemiesKilled := enemiesKilled + 1;
        score := score + ScoreValue(e.kind);
        if rolls(k).drop < DropChance {
          SpawnLoot(e.x, e.y, rolls(k));
        }
        enemies := enemies[..k] + enemies[k + 1..];
        removed' := removed + [e];
      } else {
        removed' := removed;
      }
    }

    /** One visit of the enemy pass, at index k, appending to the bursts and removals gathered so
        far: the particles it adds are those of the bursts it appends. */
    method VisitEnemy(k: nat, now: int, decay: real, rolls: nat -> LootRoll, ghost bursts: seq<Burst>,
                      ghost removed: seq<Enemy>, ghost p0: seq<Particle>)
      returns (ghost bursts': seq<Burst>, ghost removed': seq<Enemy>)
      requires Valid() && k < |enemies| && particles == p0 + BurstParticles(bursts, decay)
      modifies this`enemies, this`projectiles, this`particles, this`loot, this`score, this`enemiesKilled
      modifies player`health, player`lastDamageTime
      ensures Valid()
      ensures Capture(bursts', removed') == Visit(SceneAt(now), rolls, old(Capture(bursts, removed)), k)
      ensures particles == p0 + BurstParticles(bursts', decay)
    {
      bursts' := ActEnemy(k, now, decay, bursts, removed, p0);
      removed' := SettleEnemy(k, rolls, bursts', removed);
    }

    /** Visit k of a pass over n indices: the enemy at k is visited if k is still inside the
        array, and the rest of the pass is left to do. */
    method PassStep(k: nat, n: nat, now: int, decay: real, rolls: nat -> LootRoll, ghost sc: Scene,
                    ghost bursts: seq<Burst>, ghost removed: seq<Enemy>, ghost p0: seq<Particle>)
      returns (ghost bursts': seq<Burst>, ghost removed': seq<Enemy>)
      requires Valid() && k < n && particles == p0 + BurstParticles(bursts, decay) && sc == SceneAt(now)
      modifies this`enemies, this`projectiles, this`particles, this`loot, this`score, this`enemiesKilled
      modifies player`health, player`lastDamageTime
      ensures Valid() && sc == SceneAt(now)
      ensures EnemyPass(sc, rolls, Capture(bursts', removed'), k + 1, n) ==
              EnemyPass(sc, rolls, old(Capture(bursts, removed)), k, n)
      ensures particles == p0 + BurstParticles(bursts', decay)
    {
      if k < |enemies| {
        bursts', removed' := VisitEnemy(k, now, decay, rolls, bursts, removed, p0);
      } else {
        bursts', removed' := bursts, removed;
      }
    }

    /** The enemy pass of `Game.update`: visits the indices the array had at the start, skipping
        any index past the current end. The new state is exactly the pure pass, with the particles
        of every burst it asked for. */
    method RunEnemyPass(now: int, decay: real, rolls: nat -> LootRoll)
      returns (ghost bursts: seq<Burst>, ghost removed: seq<Enemy>)
      requires Valid()
      modifies this`enemies, this`projectiles, this`particles, this`loot, this`score, this`enemiesKilled
      modifies player`health, player`lastDamageTime
      ensures Valid()
      ensures Capture(bursts, removed) == EnemyPass(SceneAt(now), rolls, old(Capture([], [])), 0, |old(enemies)|)
      ensures particles == old(particles) + BurstParticles(bursts, decay)
    {
      var n := |enemies|;
      var k := 0;
      bursts, removed := [], [];
      ghost var sc := SceneAt(now);
      ghost var goal := EnemyPass(sc, rolls, Capture([], []), 0, n);
      while k < n
        invariant 0 <= k <= n
        invariant Valid()
        invariant sc == SceneAt(now)
        invariant EnemyPass(sc, rolls, Capture(bursts, removed), k, n) == goal
        invariant particles == old(particles) + BurstParticles(bursts, decay)
      {
        bursts, removed := PassStep(k, n, now, decay, rolls, sc, bursts, removed, old(particles));
        k := k + 1;
      }
    }

    /** The enemy pass's accounting: every enemy it removes was dead, and each removal adds one
        kill and the enemy's score value. */
    method UpdateEnemies(now: int, decay: real, rolls: nat -> LootRoll) returns (ghost removed: seq<Enemy>)
      requires Valid()
      modifies this`enemies, this`projectiles, this`particles, this`loot, this`score, this`enemiesKilled
      modifies player`health, player`lastDamageTime
      ensures Valid()
      ensures enemiesKilled == old(enemiesKilled) + |removed|
      ensures score == old(score) + TotalScore(removed)
      ensures forall e :: e in removed ==> e.isDead
      ensures old(enemies) == [] ==> enemies == []
      ensures old(enemies) == [] ==>
                removed == [] && projectiles == old(projectiles) && loot == old(loot) &&
                player.health == old(player.health) && player.lastDamageTime == old(player.lastDamageTime)
    {
      ghost var w0 := Capture([], []);
      ghost var sc := SceneAt(now);
      ghost var bursts;
      bursts, removed := RunEnemyPass(now, decay, rolls);
      EnemyPassAccounts(sc, rolls, w0, |w0.enemies|);
    }

    /** The enemy half of `aoeAttack`: every enemy whose corner lies within the radius of the
        player's corner loses the blast's damage and shows its hurt particles; then the blast's
        own particles appear at the player's centre. No enemy is added or removed. */
    method ApplyBlast(b: Blast, decay: real)
      modifies this`enemies, this`particles
      ensures |enemies| == |old(enemies)|
      ensures forall i :: 0 <= i < |enemies| ==> enemies[i] == Blasted(old(enemies)[i], b)
      ensures particles == old(particles) + BurstParticles(BlastBursts(old(enemies), b) +
                [Burst(b.x + PlayerSize / 2.0, b.y + PlayerSize / 2.0, BlastParticles)], decay)
    {
      var i := 0;
      var bursts: seq<Burst> := [];
      while i < |enemies|
        invariant 0 <= i <= |enemies| == |old(enemies)|
        invariant forall j :: i <= j < |enemies| ==> enemies[j] == old(enemies)[j]
        invariant forall j :: 0 <= j < i ==> enemies[j] == Blasted(old(enemies)[j], b)
        invariant bursts == BlastBursts(old(enemies)[..i], b)
        invariant particles == old(particles)
      {
        assert old(enemies)[..i + 1][..i] == old(enemies)[..i];
        if InBlast(enemies[i], b) {
          bursts := bursts + [HurtBurst(enemies[i])];
          enemies := enemies[i := Hurt(enemies[i], b.damage)];
        }
        i := i + 1;
      }
      assert old(enemies)[..i] == old(enemies);
      AddBursts(bursts + [Burst(b.x + PlayerSize / 2.0, b.y + PlayerSize / 2.0, BlastParticles)], decay);
    }

    /** The first pass of `checkCollisions`: every hostile projectile the pass finds overlapping
        the player is spliced out and deals its damage, which a dash ignores. */
    method ProjectilesHitPlayer(now: int, decay: real) returns (hits: seq<Projectile>)
      requires Valid()
      modifies this`projectiles, this`particles, player`health, player`lastDamageTime
      ensures Valid()
      ensures (projectiles, hits) == Sweep.Sweep(player.Box(), old(projectiles), KeepShot, HitsPlayer)
      ensures forall p :: p in hits ==> HitsPlayer(player.Box(), p) && NonNegative(p)
      ensures forall p :: p in projectiles ==> p in old(projectiles)
      ensures player.isDashing ==> player.health == old(player.health) &&
                                   player.lastDamageTime == old(player.lastDamageTime)
      ensures !player.isDashing ==> player.health == old(player.health) - TotalDamage(hits)
      ensures !player.isDashing && hits != [] ==> player.lastDamageTime == now
      ensures hits == [] ==> player.lastDamageTime == old(player.lastDamageTime)
      ensures particles == old(particles) +
                BurstParticles(Repeat(HurtBursts(player.isDashing, player.x, player.y), |hits|), decay)
    {
      var box := player.Box();
      var s := projectiles;
      var kept;
      kept, hits := Sweep.RunPass(box, s, KeepShot, HitsPlayer);
      Sweep.IdentitySweepKeeps(box, s, KeepShot, HitsPlayer);
      Sweep.PassPreserves(box, s, 0, |s|, KeepShot, HitsPlayer, [], NonNegative);
      assert forall p :: p in hits ==> NonNegative(p);
      projectiles := kept;
      TakeHits(hits, now, decay);
    }

    /** The hostile projectiles that hit the player deal their damage in order, each leaving the
        player's hurt particles; a dash ignores them all. */
    method TakeHits(hits: seq<Projectile>, now: int, decay: real)
      requires Valid() && forall p :: p in hits ==> NonNegative(p)
      modifies this`particles, player`health, player`lastDamageTime
      ensures Valid()
      ensures player.isDashing ==> player.health == old(player.health) &&
                                   player.lastDamageTime == old(player.lastDamageTime)
      ensures !player.isDashing ==> player.health == old(player.health) - TotalDamage(hits)
      ensures !player.isDashing && hits != [] ==> player.lastDamageTime == now
      ensures hits == [] ==> player.lastDamageTime == old(player.lastDamageTime)
      ensures particles == old(particles) +
                BurstParticles(Repeat(HurtBursts(player.isDashing, player.x, player.y), |hits|), decay)
    {
      ghost var hb := HurtBursts(player.isDashing, player.x, player.y);
      var i := 0;
      while i < |hits|
        invariant 0 <= i <= |hits|
        invariant Valid()
        invariant player.isDashing ==> player.health == old(player.health) &&
                                       player.lastDamageTime == old(player.lastDamageTime)
        invariant !player.isDashing ==> player.health == old(player.health) - TotalDamage(hits[..i])
        invariant !player.isDashing && i > 0 ==> player.lastDamageTime == now
        invariant i == 0 ==> player.lastDamageTime == old(player.lastDamageTime)
        invariant particles == old(particles) + BurstParticles(Repeat(hb, i), decay)
      {
        assert hits[..i + 1][..i] == hits[..i];
        assert hits[i] in hits;
        BurstParticlesAppend(Repeat(hb, i), hb, decay);
        HurtPlayer(hits[i].damage, now, decay);
        i := i + 1;
      }
      assert hits[..i] == hits;
    }

    /** The inner pass of `checkCollisions` for the enemy at index i: every friendly projectile
        the pass finds overlapping it is spliced out, hurts it by its damage and leaves the
        enemy's hurt particles and five hit particles. Other enemies are untouched. */
    method ShotsHitEnemy(i: nat, decay: real) returns (hits: seq<Projectile>)
      requires Valid() && i < |enemies|
      modifies this`projectiles, this`enemies, this`particles
      ensures Valid()
      ensures (projectiles, hits) == Sweep.Sweep(EnemyBox(old(enemies)[i]), old(projectiles), KeepShot, HitsEnemy)
      ensures forall p :: p in hits ==> HitsEnemy(EnemyBox(old(enemies)[i]), p) && NonNegative(p)
      ensures enemies == old(enemies)[i := Hurt(old(enemies)[i], TotalDamage(hits))]
      ensures enemies[i].health <= old(enemies)[i].health
      ensures forall p :: p in projectiles ==> p in old(projectiles)
      ensures particles == old(particles) + BurstParticles(HitBursts(old(enemies)[i], hits), decay)
    {
      var e := enemies[i];
      var s := projectiles;
      var kept;
      kept, hits := Sweep.RunPass(EnemyBox(e), s, KeepShot, HitsEnemy);
      Sweep.PassPreserves(EnemyBox(e), s, 0, |s|, KeepShot, HitsEnemy, [], NonNegative);
      Sweep.IdentitySweepKeeps(EnemyBox(e), s, KeepShot, HitsEnemy);
      projectiles := kept;
      var j := 0;
      var bursts: seq<Burst> := [];
      while j < |hits|
        invariant 0 <= j <= |hits|
        invariant enemies == old(enemies)[i := Hurt(e, TotalDamage(hits[..j]))]
        invariant bursts == HitBursts(e, hits[..j])
        invariant projectiles == kept && particles == old(particles)
      {
        assert hits[..j + 1][..j] == hits[..j];
        // the enemy's box and kind never change, so its hurt particles are those of e
        bursts := bursts + [HurtBurst(enemies[i]), Burst(hits[j].x, hits[j].y, HitParticles)];
        enemies := enemies[i := Hurt(enemies[i], hits[j].damage)];
        j := j + 1;
      }
      assert hits[..j] == hits;
      TotalDamageNonNegative(hits);
      AddBursts(bursts, decay);
    }

    /** The contact check of `checkCollisions`: an enemy overlapping the player deals its contact
        damage, unless the player was hit less than a second ago (or is dashing). */
    method EnemyTouchesPlayer(e: Enemy, now: int, decay: real)
      requires Valid()
      modifies player`health, player`lastDamageTime, this`particles
      ensures Valid()
      ensures var hit := Collides(EnemyBox(e), player.Box()) &&
                         Ready(now, old(player.lastDamageTime), InvulnerabilityMs) && !player.isDashing;
              player.health == (if hit then old(player.health) - ContactDamage(e.kind) else old(player.health)) &&
              player.lastDamageTime == (if hit then now else old(player.lastDamageTime))
      ensures var touch := Collides(EnemyBox(e), player.Box()) &&
                           Ready(now, old(player.lastDamageTime), InvulnerabilityMs);
              particles == old(particles) +
                (if touch then BurstParticles(HurtBursts(player.isDashing, player.x, player.y), decay) else [])
    {
      if Collides(EnemyBox(e), player.Box()) && Ready(now, player.lastDamageTime, InvulnerabilityMs) {
        HurtPlayer(ContactDamage(e.kind), now, decay);
      }
    }

    /** The state the enemy collisions change, with the bursts asked for so far. */
    ghost function ClashState(bursts: seq<Burst>): Clash
      reads this, player
    {
      Clash(enemies, projectiles, player.health, player.lastDamageTime, bursts)
    }

    /** The collisions of the enemy at index i, appending to the bursts gathered so far. */
    method ClashEnemy(i: nat, now: int, decay: real, ghost sc: Scene, ghost bursts: seq<Burst>,
                      ghost p0: seq<Particle>) returns (ghost bursts': seq<Burst>)
      requires Valid() && i < |enemies| && sc == SceneAt(now) && particles == p0 + BurstParticles(bursts, decay)
      modifies this`enemies, this`projectiles, this`particles, player`health, player`lastDamageTime
      ensures Valid() && sc == SceneAt(now)
      ensures ClashState(bursts') == ClashAt(sc, old(ClashState(bursts)), i)
      ensures particles == p0 + BurstParticles(bursts', decay)
    {
      ghost var e := enemies[i];
      ghost var p1 := particles;
      var hits := ShotsHitEnemy(i, decay);
      ghost var hb := HitBursts(e, hits);
      ghost var p2 := particles;
      EnemyTouchesPlayer(enemies[i], now, decay);
      ghost var touch := Collides(EnemyBox(e), player.Box()) && Ready(now, old(player.lastDamageTime), InvulnerabilityMs);
      ghost var tb := if touch then HurtBursts(player.isDashing, player.x, player.y) else [];
      bursts' := bursts + hb + tb;
      assert particles == p0 + BurstParticles(bursts', decay) by {
        BurstParticlesAppend(bursts, hb, decay);
        BurstParticlesAppend(bursts + hb, tb, decay);
        ghost var pb, ph, pt := BurstParticles(bursts, decay), BurstParticles(hb, decay), BurstParticles(tb, decay);
        assert touch ==> pt == BurstParticles(HurtBursts(player.isDashing, player.x, player.y), decay);
        assert !touch ==> pt == [];
        assert particles == p0 + pb + ph + pt;
        ConcatAssoc(p0, pb + ph, pt);
        ConcatAssoc(p0, pb, ph);
      }
    }

    /** The enemy pass of `checkCollisions`: for each enemy in turn, the friendly shots that hit
        it, then its contact with the player. The new state is exactly the pure collisions, with
        the particles of every burst they asked for. */
    method EnemyCollisions(now: int, decay: real) returns (ghost bursts: seq<Burst>)
      requires Valid()
      modifies this`enemies, this`projectiles, this`particles, player`health, player`lastDamageTime
      ensures Valid()
      ensures ClashState(bursts) == Clashes(SceneAt(now), old(ClashState([])), 0)
      ensures particles == old(particles) + BurstParticles(bursts, decay)
    {
      var i := 0;
      bursts := [];
      ghost var sc := SceneAt(now);
      ghost var goal := Clashes(sc, ClashState([]), 0);
      while i < |enemies|
        invariant 0 <= i <= |enemies| == |old(enemies)|
        invariant Valid() && sc == SceneAt(now)
        invariant Clashes(sc, ClashState(bursts), i) == goal
        invariant particles == old(particles) + BurstParticles(bursts, decay)
        decreases |enemies| - i
      {
        bursts := ClashEnemy(i, now, decay, sc, bursts, old(particles));
        i := i + 1;
      }
    }

    /** The loot pass of `checkCollisions`: every item the pass finds overlapping the player is
        spliced out and collected, in order, leaving eight particles where it lay. */
    method CollectLoot(decay: real) returns (taken: seq<LootItem>)
      requires Valid()
      modifies this`loot, this`particles, this`score, player`health, player`weapon
      ensures Valid()
      ensures (loot, taken) == Sweep.Sweep(player.Box(), old(loot), KeepLoot, Touches)
      ensures var r := CollectAll(taken, old(player.health), old(player.weapon), old(score));
              player.health == r.health && player.weapon == r.weapon && score == r.score
      ensures old(player.health) <= player.health && score == old(score) + EpicScore * EpicCount(taken)
      ensures player.weapon.damage >= old(player.weapon.damage)
      ensures forall l :: l in loot ==> l in old(loot)
      ensures particles == old(particles) + BurstParticles(PickupBursts(taken), decay)
    {
      var kept;
      kept, taken := Sweep.RunPass(player.Box(), loot, KeepLoot, Touches);
      Sweep.IdentitySweepKeeps(player.Box(), loot, KeepLoot, Touches);
      loot := kept;
      var i := 0;
      var bursts: seq<Burst> := [];
      while i < |taken|
        invariant 0 <= i <= |taken|
        invariant Valid()
        invariant var r := CollectAll(taken[..i], old(player.health), old(player.weapon), old(score));
                  player.health == r.health && player.weapon == r.weapon && score == r.score
        invariant bursts == PickupBursts(taken[..i])
        invariant loot == kept && particles == old(particles)
      {
        assert taken[..i + 1][..i] == taken[..i];
        CollectAllBounds(taken[..i], old(player.health), old(player.weapon), old(score));
        var r := Collect(taken[i].kind, player.health, PlayerMaxHealth, player.weapon, score);
        player.health, player.weapon, score := r.health, r.weapon, r.score;
        bursts := bursts + [Burst(taken[i].x, taken[i].y, PickupParticles)];
        i := i + 1;
      }
      assert taken[..i] == taken;
      CollectAllBounds(taken, old(player.health), old(player.weapon), old(score));
      AddBursts(bursts, decay);
    }

    /** `checkCollisions`: hostile shots against the player, then for each enemy the friendly
        shots against it and its contact with the player, then the loot against the player.
        `mid` is the state after the first pass, from which the enemy collisions start. */
    method CheckCollisions(now: int, decay: real)
      returns (hits: seq<Projectile>, ghost mid: Clash, ghost bursts: seq<Burst>, taken: seq<LootItem>)
      requires Valid()
      modifies this`enemies, this`projectiles, this`particles, this`loot, this`score
      modifies player`health, player`lastDamageTime, player`weapon
      ensures Valid()
      ensures (mid.projectiles, hits) == Sweep.Sweep(player.Box(), old(projectiles), KeepShot, HitsPlayer)
      ensures mid.enemies == old(enemies) && mid.bursts == []
      ensures mid.health == (if player.isDashing then old(player.health) else old(player.health) - TotalDamage(hits))
      ensures mid.lastDamageTime == (if player.isDashing || hits == [] then old(player.lastDamageTime) else now)
      ensures var c := Clashes(SceneAt(now), mid, 0);
              bursts == c.bursts && enemies == c.enemies && projectiles == c.projectiles && player.lastDamageTime == c.lastDamageTime &&
              var r := CollectAll(taken, c.health, old(player.weapon), old(score));
              player.health == r.health && player.weapon == r.weapon && score == r.score
      ensures (loot, taken) == Sweep.Sweep(player.Box(), old(loot), KeepLoot, Touches)
      ensures score == old(score) + EpicScore * EpicCount(taken)
      ensures particles == old(particles) +
                BurstParticles(Repeat(HurtBursts(player.isDashing, player.x, player.y), |hits|), decay) +
                BurstParticles(bursts, decay) + BurstParticles(PickupBursts(taken), decay)
    {
      hits := ProjectilesHitPlayer(now, decay);
      mid := ClashState([]);
      bursts := EnemyCollisions(now, decay);
      taken := CollectLoot(decay);
    }

    /** `checkCollisions` as the rest of the frame sees it: the invariant holds and the score
        never falls. */
    method Collide(now: int, decay: real)
      requires Valid()
      modifies this`enemies, this`projectiles, this`particles, this`loot, this`score
      modifies player`health, player`lastDamageTime, player`weapon
      ensures Valid()
      ensures score >= old(score)
      ensures old(enemies) == [] ==> enemies == []
      ensures old(Quiet()) ==>
                score == old(score) && player.health == old(player.health) &&
                player.weapon == old(player.weapon) && player.lastDamageTime == old(player.lastDamageTime)
    {
      ghost var p0, l0 := projectiles, loot;
      var hits, mid, bursts, taken := CheckCollisions(now, decay);
      if old(Quiet()) {
        Sweep.IdentitySweepKeeps(player.Box(), p0, KeepShot, HitsPlayer);
        assert hits == Sweep.Pass(player.Box(), p0, 0, |p0|, KeepShot, HitsPlayer, []).1;
        assert forall p :: p in hits ==> p in p0 && HitsPlayer(player.Box(), p);
        assert hits != [] ==> hits[0] in hits;
        assert taken == [];
      }
    }

    /** The projectile pass of `Game.update`: move each visited projectile and splice it out
        once it is marked dead. */
    method UpdateProjectiles(f: Frame)
      requires Valid()
      modifies this`projectiles
      ensures Valid()
      ensures projectiles == Sweep.Sweep(f, old(projectiles), ProjectileStep, ProjectileGone).0
      ensures |projectiles| <= |old(projectiles)|
      ensures (forall p :: p in old(projectiles) ==> p.friendly) ==> forall p :: p in projectiles ==> p.friendly
    {
      var s := projectiles;
      var kept, gone := Sweep.RunPass(f, s, ProjectileStep, ProjectileGone);
      Sweep.PassPreserves(f, s, 0, |s|, ProjectileStep, ProjectileGone, [], NonNegative);
      assert forall p :: p in kept ==> NonNegative(p);
      if forall p :: p in s ==> p.friendly {
        Sweep.PassPreserves(f, s, 0, |s|, ProjectileStep, ProjectileGone, [], Friendly);
        assert forall p :: p in kept ==> Friendly(p);
      }
      projectiles := kept;
    }

    /** The particle pass of `Game.update`: fade each visited particle and splice it out once dead. */
    method UpdateParticles(f: Frame)
      modifies this`particles
      ensures particles == Sweep.Sweep(f, old(particles), ParticleStep, ParticleGone).0
      ensures |particles| <= |old(particles)|
    {
      var kept, gone := Sweep.RunPass(f, particles, ParticleStep, ParticleGone);
      particles := kept;
    }

    /** The loot pass of `Game.update`. No item is ever marked dead, so the pass removes nothing
        and advances every item's clock. */
    method UpdateLoot(f: Frame)
      requires Valid()
      modifies this`loot
      ensures Valid()
      ensures |loot| == |old(loot)|
      ensures forall i :: 0 <= i < |loot| ==> loot[i] == LootStep(f, old(loot)[i])
    {
      Sweep.SweepWhenNoneGone(f, loot, LootStep, LootGone);
      var kept, gone := Sweep.RunPass(f, loot, LootStep, LootGone);
      loot := kept;
    }

    /** The player part of `Game.update`: the player's own update, then what its attacks add
        (shots and their particles, the area blast on the enemies); a death ends the game. */
    method PlayerStep(input: Input, now: int, dt: real, decay: real) returns (acts: Actions, died: bool)
      requires Valid() && dt >= 0.0
      modifies player, this`projectiles, this`particles, this`enemies, this`state
      ensures Valid()
      ensures (player.Snapshot(), acts, died) == Step(old(player.Snapshot()), input, now, dt, width, height)
      ensures player.isDead <==> old(player.isDead) || old(player.health) <= 0.0
      ensures state == (if died then GameOver else old(state))
      ensures projectiles == old(projectiles) + acts.shots
      ensures acts.blast.None? ==>
                enemies == old(enemies) && particles == old(particles) + BurstParticles(acts.bursts, decay)
      ensures acts.blast.Some? ==>
                |enemies| == |old(enemies)| &&
                (forall i :: 0 <= i < |enemies| ==> enemies[i] == Blasted(old(enemies)[i], acts.blast.value)) &&
                particles == old(particles) + BurstParticles(acts.bursts, decay) +
                  BurstParticles(BlastBursts(old(enemies), acts.blast.value) +
                    [Burst(acts.blast.value.x + PlayerSize / 2.0, acts.blast.value.y + PlayerSize / 2.0, BlastParticles)], decay)
    {
      acts, died := player.Update(input, now, dt, width, height);
      projectiles := projectiles + acts.shots;
      AddBursts(acts.bursts, decay);
      if acts.blast.Some? {
        ApplyBlast(acts.blast.value, decay);
      }
      if died {
        state := GameOver;
      }
    }

    /** The four update passes of `Game.update`: enemies, projectiles, particles and loot. */
    method UpdatePasses(now: int, dt: real, decay: real, rolls: nat -> LootRoll) returns (ghost removed: seq<Enemy>)
      requires Valid()
      modifies this`enemies, this`projectiles, this`particles, this`loot, this`score, this`enemiesKilled
      modifies player`health, player`lastDamageTime
      ensures Valid()
      ensures enemiesKilled == old(enemiesKilled) + |removed| && forall e :: e in removed ==> e.isDead
      ensures score == old(score) + TotalScore(removed)
      ensures old(enemies) == [] ==> enemies == []
      ensures old(Quiet()) ==>
                Quiet() && removed == [] &&
                player.health == old(player.health) && player.lastDamageTime == old(player.lastDamageTime)
    {
      removed := UpdateEnemies(now, decay, rolls);
      var f := Frame(dt, width, height);
      UpdateProjectiles(f);
      UpdateParticles(f);
      UpdateLoot(f);
    }

    /** Everything in `Game.update` after the player: the enemy pass, the projectile, particle
        and loot passes, the collisions and the wave check. Each removed enemy was dead and adds
        one kill and its score value; the collected loot can only add to the score. */
    method WorldStep(now: int, dt: real, decay: real, rolls: nat -> LootRoll) returns (ghost removed: seq<Enemy>)
      requires Valid()
      modifies this`enemies, this`projectiles, this`particles, this`loot, this`score, this`enemiesKilled
      modifies this`state, this`pendingWaveAdvances
      modifies player`health, player`lastDamageTime, player`weapon
      ensures Valid()
      ensures enemiesKilled == old(enemiesKilled) + |removed| && forall e :: e in removed ==> e.isDead
      ensures score >= old(score) + TotalScore(removed)
      ensures enemies == [] && currentWave <= MaxWaves ==>
                pendingWaveAdvances == old(pendingWaveAdvances) + 1 && state == old(state)
      ensures enemies == [] && currentWave > MaxWaves ==>
                state == LevelComplete && pendingWaveAdvances == old(pendingWaveAdvances)
      ensures enemies != [] ==> state == old(state) && pendingWaveAdvances == old(pendingWaveAdvances)
      ensures old(enemies) == [] ==> enemies == []
      ensures old(Quiet()) ==>
                removed == [] && score == old(score) && player.health == old(player.health) &&
                player.weapon == old(player.weapon) && player.lastDamageTime == old(player.lastDamageTime)
    {
      removed := UpdatePasses(now, dt, decay, rolls);
      Collide(now, decay);
      CheckWaveProgress();
    }

    /** `Game.update`, one frame. A player who dies in the frame that clears the last wave's
        field still ends in the level-complete state: the wave check runs after the death. */
    method Update(input: Input, now: int, dt: real, decay: real, rolls: nat -> LootRoll)
      returns (died: bool, ghost removed: seq<Enemy>)
      requires Valid() && dt >= 0.0
      modifies player, this`projectiles, this`particles, this`enemies, this`state, this`loot
      modifies this`score, this`enemiesKilled, this`pendingWaveAdvances
      ensures Valid()
      ensures died <==> !old(player.isDead) && old(player.health) <= 0.0
      ensures player.isDead <==> old(player.isDead) || old(player.health) <= 0.0
      ensures enemiesKilled == old(enemiesKilled) + |removed| && forall e :: e in removed ==> e.isDead
      ensures score >= old(score) + TotalScore(removed)
      ensures state == (if enemies == [] && currentWave > MaxWaves then LevelComplete
                        else if died then GameOver else old(state))
      ensures pendingWaveAdvances ==
                (if enemies == [] && currentWave <= MaxWaves then old(pendingWaveAdvances) + 1 else old(pendingWaveAdvances))
      ensures player.Snapshot() == Step(old(player.Snapshot()), input, now, dt, width, height).0.(
                health := player.health, lastDamageTime := player.lastDamageTime, weapon := player.weapon)
      ensures old(enemies) == [] ==> enemies == []
      ensures old(Quiet()) ==>
                removed == [] && score == old(score) && enemiesKilled == old(enemiesKilled) &&
                player.health == old(player.health) && player.weapon == old(player.weapon) &&
                player.lastDamageTime == old(player.lastDamageTime)
    {
      ghost var b0 := player.Snapshot();
      var acts;
      acts, died := PlayerStep(input, now, dt, decay);
      StepKeepsSound(b0, input, now, dt, width, height);
      removed := WorldStep(now, dt, decay, rolls);
    }

    /** `startGame`: leave the cutscene, start the current wave and run the first frame, which
        the frame loop calls with the timestamp 0; play has just begun, so the loop takes its
        playing branch. */
    method StartGame(input: Input, now: int, decay: real, rolls: nat -> LootRoll)
      returns (ghost removed: seq<Enemy>)
      requires Valid() && lastTime <= 0.0
      modifies player, this`projectiles, this`particles, this`enemies, this`state, this`loot
      modifies this`score, this`enemiesKilled, this`pendingWaveAdvances, this`lastTime, this`pendingSpawns
      ensures Valid()
      ensures lastTime == 0.0 && currentWave == old(currentWave)
      ensures currentWave <= MaxWaves ==> pendingSpawns == old(pendingSpawns) + EnemiesPerWave
      ensures currentWave > MaxWaves ==> pendingSpawns == old(pendingSpawns)
      ensures enemiesKilled == old(enemiesKilled) + |removed| && forall e :: e in removed ==> e.isDead
      ensures score >= old(score) + TotalScore(removed)
      ensures state == (if enemies == [] && currentWave > MaxWaves then LevelComplete
                        else if !old(player.isDead) && old(player.health) <= 0.0 then GameOver else Playing)
      ensures pendingWaveAdvances ==
                (if enemies == [] && currentWave <= MaxWaves then old(pendingWaveAdvances) + 1 else old(pendingWaveAdvances))
      ensures old(enemies) == [] && currentWave <= MaxWaves ==>
                enemies == [] && pendingWaveAdvances == old(pendingWaveAdvances) + 1
      ensures player.Snapshot() == Step(old(player.Snapshot()), input, now, (0.0 - old(lastTime)) / 1000.0,
                                        width, height).0.(health := player.health,
                                                          lastDamageTime := player.lastDamageTime,
                                                          weapon := player.weapon)
      ensures old(Quiet()) && currentWave <= MaxWaves ==>
                removed == [] && score == old(score) && enemiesKilled == old(enemiesKilled) &&
                player.health == old(player.health) && player.weapon == old(player.weapon) &&
                player.lastDamageTime == old(player.lastDamageTime)
    {
      state := Playing;
      SpawnWave();
      removed := Advance(0.0, input, now, decay, rolls);
    }

    /** One call of `gameLoop`: outside play nothing happens; otherwise the delta time is the
        gap since the previous timestamp, in seconds, and the frame is updated. */
    method Tick(currentTime: real, input: Input, now: int, decay: real, rolls: nat -> LootRoll)
      returns (ghost removed: seq<Enemy>)
      requires Valid() && currentTime >= lastTime
      modifies player, this`projectiles, this`particles, this`enemies, this`state, this`loot
      modifies this`score, this`enemiesKilled, this`pendingWaveAdvances, this`lastTime
      ensures Valid()
      ensures old(state) != Playing ==> unchanged(this) && unchanged(player) && removed == []
      ensures old(state) == Playing ==>
                lastTime == currentTime &&
                enemiesKilled == old(enemiesKilled) + |removed| && (forall e :: e in removed ==> e.isDead) &&
                score >= old(score) + TotalScore(removed) &&
                (player.isDead <==> old(player.isDead) || old(player.health) <= 0.0) &&
                state == (if enemies == [] && currentWave > MaxWaves then LevelComplete
                          else if !old(player.isDead) && old(player.health) <= 0.0 then GameOver else Playing) &&
                pendingWaveAdvances == (if enemies == [] && currentWave <= MaxWaves then old(pendingWaveAdvances) + 1
                                        else old(pendingWaveAdvances)) &&
                (old(enemies) == [] ==> enemies == []) &&
                player.Snapshot() == Step(old(player.Snapshot()), input, now, (currentTime - old(lastTime)) / 1000.0,
                                          width, height).0.(health := player.health,
                                                            lastDamageTime := player.lastDamageTime,
                                                            weapon := player.weapon)
      ensures old(state) == Playing && old(Quiet()) ==>
                removed == [] && score == old(score) && enemiesKilled == old(enemiesKilled) &&
                player.health == old(player.health) && player.weapon == old(player.weapon) &&
                player.lastDamageTime == old(player.lastDamageTime)
    {
      if state != Playing {
        return [];
      }
      removed := Advance(currentTime, input, now, decay, rolls);
    }

    /** The playing branch of `gameLoop`: store the timestamp and update the frame with the gap
        since the previous one, in seconds, as the delta time. */
    method Advance(currentTime: real, input: Input, now: int, decay: real, rolls: nat -> LootRoll)
      returns (ghost removed: seq<Enemy>)
      requires Valid() && state == Playing && currentTime >= lastTime
      modifies player, this`projectiles, this`particles, this`enemies, this`state, this`loot
      modifies this`score, this`enemiesKilled, this`pendingWaveAdvances, this`lastTime
      ensures Valid()
      ensures lastTime == currentTime
      ensures enemiesKilled == old(enemiesKilled) + |removed| && forall e :: e in removed ==> e.isDead
      ensures score >= old(score) + TotalScore(removed)
      ensures player.isDead <==> old(player.isDead) || old(player.health) <= 0.0
      ensures state == (if enemies == [] && currentWave > MaxWaves then LevelComplete
                        else if !old(player.isDead) && old(player.health) <= 0.0 then GameOver else Playing)
      ensures pendingWaveAdvances ==
                (if enemies == [] && currentWave <= MaxWaves then old(pendingWaveAdvances) + 1 else old(pendingWaveAdvances))
      ensures old(enemies) == [] ==> enemies == []
      ensures player.Snapshot() == Step(old(player.Snapshot()), input, now, (currentTime - old(lastTime)) / 1000.0,
                                        width, height).0.(health := player.health,
                                                          lastDamageTime := player.lastDamageTime,
                                                          weapon := player.weapon)
      ensures old(Quiet()) ==>
                removed == [] && score == old(score) && enemiesKilled == old(enemiesKilled) &&
                player.health == old(player.health) && player.weapon == old(player.weapon) &&
                player.lastDamageTime == old(player.lastDamageTime)
    {
      var dt := (currentTime - lastTime) / 1000.0;
      lastTime := currentTime;
      var died;
      died, removed := Update(input, now, dt, decay, rolls);
    }
  }

  /** `restartGame` (and the first `startGame`): a new game, started at once. The first frame
      finds the field empty, since the wave's crawlers are only scheduled, so exactly one wave
      advance is pending afterwards and play goes on. */
  method RestartGame(width: real, height: real, input: Input, now: int, decay: real, rolls: nat -> LootRoll)
    returns (g: Game)
    ensures fresh(g) && g.Valid()
    ensures g.state == Playing && g.currentWave == 1 && g.lastTime == 0.0
    ensures g.enemies == [] && g.pendingSpawns == EnemiesPerWave && g.pendingWaveAdvances == 1
    ensures !g.player.isDead
    ensures g.score == 0 && g.enemiesKilled == 0
    ensures g.player.health == PlayerMaxHealth && g.player.weapon == StartingWeapon && g.player.lastDamageTime == 0
    ensures g.player.Snapshot() ==
              Step(Body(width / 2.0, height / 2.0, PlayerMaxHealth, MaxStamina, false, 0.0, 0, StartingWeapon,
                        0, 0, 0, 0, false), input, now, 0.0, width, height).0
  {
    g := new Game(width, height);
    var removed := g.StartGame(input, now, decay, rolls);
  }
}
