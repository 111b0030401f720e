/** The game's passive entities as values: projectiles, loot pickups and particles,
    the weapon a player carries, and the per-frame context their updates read. */
module Entities {
  import opened Geometry

  datatype Option<T> = None | Some(value: T)

  /** What an update reads from the game: the frame's delta time in seconds and the canvas size. */
  datatype Frame = Frame(dt: real, width: real, height: real)

  /** A cooldown of `cooldown` ms since the stamp `last` has strictly elapsed at time `now`. */
  predicate Ready(now: int, last: int, cooldown: int) { now - last > cooldown }

  /** A request for `count` particles at (x, y), as `Game.createParticles` receives it. */
  datatype Burst = Burst(x: real, y: real, count: nat)

  // ---------------------------------------------------------------- projectiles

  /** A projectile keeps its velocity for life; `friendly` shots hurt enemies, the others the player. */
  datatype Projectile = Projectile(x: real, y: real, vx: real, vy: real, size: real,
                                   damage: real, friendly: bool, isDead: bool)

  const ProjectileSize: real := 8.0
  /** How far past the canvas edge a projectile may fly before it is dead. */
  const Margin: real := 50.0

  function ProjectileBox(p: Projectile): Box { Box(p.x, p.y, p.size, p.size) }

  /** `new Projectile(x, y, angle, speed, damage, friendly, ...)`, with the unit direction
      (cos angle, sin angle) given instead of the angle. */
  function NewProjectile(x: real, y: real, dirX: real, dirY: real, speed: real, damage: real,
                         friendly: bool): (p: Projectile)
    ensures !p.isDead && p.size == ProjectileSize && p.damage == damage && p.friendly == friendly
    ensures p.x == x && p.y == y && p.vx == dirX * speed && p.vy == dirY * speed
  {
    Projectile(x, y, dirX * speed, dirY * speed, ProjectileSize, damage, friendly, false)
  }

  /** Outside the canvas grown by the margin on every side. */
  predicate OutOfBounds(x: real, y: real, f: Frame)
  {
    x < -Margin || x > f.width + Margin || y < -Margin || y > f.height + Margin
  }

  /** `Projectile.update`: move by velocity times dt, then die once outside the grown canvas.
      The dead flag is only ever set, never cleared. */
  function ProjectileStep(f: Frame, p: Projectile): (r: Projectile)
    ensures r.isDead <==> p.isDead || OutOfBounds(r.x, r.y, f)
    ensures r.x - p.x == p.vx * f.dt && r.y - p.y == p.vy * f.dt
    ensures r.vx == p.vx && r.vy == p.vy && r.damage == p.damage && r.friendly == p.friendly
    ensures r.size == p.size
  {
    var nx := p.x + p.vx * f.dt;
    var ny := p.y + p.vy * f.dt;
    p.(x := nx, y := ny, isDead := p.isDead || OutOfBounds(nx, ny, f))
  }

  /** The update pass splices a projectile out when its flag is set. */
  predicate ProjectileGone(f: Frame, p: Projectile) { p.isDead }

  /** A live projectile that stays on the canvas, margin included, is still alive after its update. */
  lemma ProjectileOnCanvasLives(f: Frame, p: Projectile)
    requires !p.isDead
    requires -Margin <= p.x + p.vx * f.dt <= f.width + Margin
    requires -Margin <= p.y + p.vy * f.dt <= f.height + Margin
    ensures !ProjectileGone(f, ProjectileStep(f, p))
  {
  }

  // ---------------------------------------------------------------- particles

  /** A purely cosmetic particle; its motion is not modelled, only its fading life. */
  datatype Particle = Particle(x: real, y: real, life: real, decay: real, isDead: bool)

  /** The fixed time step a particle update uses, whatever the frame's real delta time. */
  const ParticleTick: real := 0.016

  /** `count` fresh particles at (x, y), each with full life and the given decay rate. */
  function NewParticles(x: real, y: real, count: nat, decay: real): (r: seq<Particle>)
    ensures |r| == count
    ensures forall i :: 0 <= i < |r| ==> r[i] == Particle(x, y, 1.0, decay, false)
  {
    if count == 0 then [] else [Particle(x, y, 1.0, decay, false)] + NewParticles(x, y, count - 1, decay)
  }

  /** `Particle.update`: life falls by decay * 0.016 and the particle dies at zero life. */
  function ParticleStep(f: Frame, p: Particle): (r: Particle)
    ensures r.life == p.life - p.decay * ParticleTick
    ensures r.isDead <==> p.isDead || r.life <= 0.0
    ensures r.decay == p.decay && r.x == p.x && r.y == p.y
  {
    var life := p.life - p.decay * ParticleTick;
    p.(life := life, isDead := p.isDead || life <= 0.0)
  }

  predicate ParticleGone(f: Frame, p: Particle) { p.isDead }

  /** The particle after n updates. */
  function ParticleSteps(f: Frame, p: Particle, n: nat): Particle
    decreases n
  {
    if n == 0 then p else ParticleSteps(f, ParticleStep(f, p), n - 1)
  }

  /** With a decay of at least 1, n updates lower life by at least n * 0.016, the decay never
      changes, and the particle is dead exactly when it started dead or its life reached zero. */
  lemma {:induction false} ParticleLifeAfter(f: Frame, p: Particle, n: nat)
    requires p.decay >= 1.0
    ensures ParticleSteps(f, p, n).decay == p.decay
    ensures ParticleSteps(f, p, n).life <= p.life - (n as real) * ParticleTick
    ensures ParticleSteps(f, p, n).isDead <==> p.isDead || (n > 0 && ParticleSteps(f, p, n).life <= 0.0)
    decreases n
  {
    if n > 0 {
      var q := ParticleStep(f, p);
      ParticleLifeAfter(f, q, n - 1);
      if n - 1 > 0 {
        // life only falls, so once at or below zero it stays there
        ParticleLifeFalls(f, q, n - 1);
      }
    }
  }

  /** Helper: n >= 1 updates never raise life above the life after the first update. */
  lemma {:induction false} ParticleLifeFalls(f: Frame, p: Particle, n: nat)
    requires p.decay >= 1.0 && n >= 1
    ensures ParticleSteps(f, p, n).life <= ParticleStep(f, p).life
    decreases n
  {
    if n > 1 {
      ParticleLifeFalls(f, ParticleStep(f, p), n - 1);
    }
  }

  /** Every particle the game creates (life 1, decay drawn from [1, 3)) is dead after 63 updates. */
  lemma FreshParticleDiesWithin63(f: Frame, x: real, y: real, decay: real)
    requires 1.0 <= decay
    ensures ParticleSteps(f, Particle(x, y, 1.0, decay, false), 63).isDead
  {
    ParticleLifeAfter(f, Particle(x, y, 1.0, decay, false), 63);
  }

  // ---------------------------------------------------------------- weapons and loot

  datatype Weapon = Weapon(name: string, damage: real)

  const StartingWeapon: Weapon := Weapon("Light Blade Mic", 10.0)

  datatype LootKind = Health | WeaponUpgrade | EpicWeapon

  /** A pickup; its cosmetic vertical bob is not modelled, only its clock. */
  datatype LootItem = LootItem(x: real, y: real, kind: LootKind, time: real, isDead: bool)

  const LootSize: real := 20.0

  function LootBox(l: LootItem): Box { Box(l.x, l.y, LootSize, LootSize) }

  function NewLoot(x: real, y: real, kind: LootKind): (l: LootItem)
    ensures l.kind == kind && !l.isDead && l.x == x && l.y == y
  {
    LootItem(x, y, kind, 0.0, false)
  }

  /** `LootItem.update` only advances the item's clock; nothing ever sets a loot item's dead flag. */
  function LootStep(f: Frame, l: LootItem): (r: LootItem)
    ensures r.isDead == l.isDead && r.kind == l.kind && r.x == l.x && r.y == l.y
    ensures r.time == l.time + f.dt
  {
    l.(time := l.time + f.dt)
  }

  predicate LootGone(f: Frame, l: LootItem) { l.isDead }

  const HealAmount: real := 30.0
  const WeaponBonus: real := 2.0
  const EpicBonus: real := 10.0
  const EpicScore: int := 50

  /** What `LootItem.collect` does to the player's health and weapon and to the score. */
  datatype Reward = Reward(health: real, weapon: Weapon, score: int)

  /** `LootItem.collect` as a function of the player's health, health cap, weapon and the score. */
  function Collect(kind: LootKind, health: real, maxHealth: real, weapon: Weapon, score: int): (r: Reward)
    ensures kind == Health ==> r.weapon == weapon && r.score == score &&
                               r.health == Min(maxHealth, health + HealAmount)
    ensures kind == WeaponUpgrade ==> r.health == health && r.score == score &&
                                      r.weapon == Weapon("Enhanced Mic", weapon.damage + WeaponBonus)
    ensures kind == EpicWeapon ==> r.health == health && r.score == score + EpicScore &&
                                   r.weapon == Weapon("Bass Blade", weapon.damage + EpicBonus)
  {
    match kind
    case Health => Reward(Min(maxHealth, health + HealAmount), weapon, score)
    case WeaponUpgrade => Reward(health, Weapon("Enhanced Mic", weapon.damage + WeaponBonus), score)
    case EpicWeapon => Reward(health, Weapon("Bass Blade", weapon.damage + EpicBonus), score + EpicScore)
  }

  /** Collecting never pushes health past the cap nor lowers it, never lowers weapon damage
      and never lowers the score. */
  lemma CollectKeepsBounds(kind: LootKind, health: real, maxHealth: real, weapon: Weapon, score: int)
    requires health <= maxHealth
    ensures var r := Collect(kind, health, maxHealth, weapon, score);
            health <= r.health <= maxHealth && r.health <= health + HealAmount &&
            r.weapon.damage >= weapon.damage && r.score >= score
  {
  }

  /** A health pickup at 80 of 100 heals to exactly 100, not 110. */
  lemma HealthPickupClamps(weapon: Weapon, score: int)
    ensures Collect(Health, 80.0, 100.0, weapon, score).health == 100.0
  {
  }
}
