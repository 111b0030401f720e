/** The two enemy kinds, StreetCrawler and the AmpFiend boss, as values. An enemy's update
    returns the enemy after the update together with everything it asks the game to add:
    summoned enemies, projectiles, particle bursts, a stomp on the player and dropped loot. */
module Enemies {
  import opened Geometry
  import opened Entities

  /** The boss carries its attack phase, 1 to 3. */
  datatype Kind = StreetCrawler | AmpFiend(phase: int)

  datatype Enemy = Enemy(kind: Kind, x: real, y: real, health: real, lastAttackTime: int, isDead: bool)

  // Per-kind constants of the two enemy classes.
  function Size(k: Kind): real { if k.StreetCrawler? then 25.0 else 50.0 }
  function MaxHealth(k: Kind): real { if k.StreetCrawler? then 30.0 else 300.0 }
  function ContactDamage(k: Kind): real { if k.StreetCrawler? then 5.0 else 15.0 }
  function ScoreValue(k: Kind): int { if k.StreetCrawler? then 10 else 100 }
  function AttackCooldown(k: Kind): int { if k.StreetCrawler? then 2000 else 3000 }

  /** A StreetCrawler attacks within this distance of the player. */
  const AttackRange: real := 40.0
  /** The boss's stomp reaches the player within this distance. */
  const StompRadius: real := 100.0
  /** Summoned adds appear this far left and right of the boss. */
  const SummonRadius: real := 60.0
  const OverloadSpeed: real := 200.0
  /** Number of projectiles in the boss's radial burst and of adds per summon. */
  const OverloadCount: nat := 8
  const SummonCount: nat := 2

  function NewStreetCrawler(x: real, y: real): (e: Enemy)
    ensures e.kind == StreetCrawler && !e.isDead && e.health == MaxHealth(e.kind) && e.x == x && e.y == y
  {
    Enemy(StreetCrawler, x, y, 30.0, 0, false)
  }

  function NewAmpFiend(x: real, y: real): (e: Enemy)
    ensures e.kind == AmpFiend(1) && !e.isDead && e.health == MaxHealth(e.kind) && e.x == x && e.y == y
  {
    Enemy(AmpFiend(1), x, y, 300.0, 0, false)
  }

  function EnemyBox(e: Enemy): Box { Box(e.x, e.y, Size(e.kind), Size(e.kind)) }
  function CenterX(e: Enemy): real { e.x + Size(e.kind) / 2.0 }
  function CenterY(e: Enemy): real { e.y + Size(e.kind) / 2.0 }

  /** `takeDamage`: health falls by exactly the amount; nothing else about the enemy changes. */
  function Hurt(e: Enemy, amount: real): (r: Enemy)
    ensures r.health == e.health - amount
    ensures r.kind == e.kind && r.x == e.x && r.y == e.y && r.isDead == e.isDead
    ensures r.lastAttackTime == e.lastAttackTime && EnemyBox(r) == EnemyBox(e)
  {
    e.(health := e.health - amount)
  }

  /** The particles `takeDamage` creates at the enemy's centre: 3 for a crawler, 5 for the boss. */
  function HurtBurst(e: Enemy): Burst
  {
    Burst(CenterX(e), CenterY(e), if e.kind.StreetCrawler? then 3 else 5)
  }

  // ---------------------------------------------------------------- boss phase

  /** The boss's remaining health as a fraction of its maximum. */
  function Fraction(health: real): real { health / MaxHealth(AmpFiend(1)) }

  /** The tier a health fraction calls for: 3 at or below 40%, 2 at or below 70%, else 1. */
  function Tier(health: real): (t: int)
    ensures 1 <= t <= 3
  {
    var ratio := Fraction(health);
    if ratio <= 0.4 then 3 else if ratio <= 0.7 then 2 else 1
  }

  function MaxInt(a: int, b: int): int { if a >= b then a else b }

  /** `AmpFiend.updatePhase`. The phase is raised to the tier the health calls for and never
      lowered: at or below 40% it jumps to 3 even from phase 1. */
  function NextPhase(phase: int, health: real): (r: int)
    ensures phase >= 1 ==> r == MaxInt(phase, Tier(health))
    ensures r >= phase
    ensures 1 <= phase <= 3 ==> 1 <= r <= 3
    ensures health <= 120.0 ==> r >= 3
    ensures health <= 210.0 ==> r >= 2
  {
    var ratio := Fraction(health);
    if ratio <= 0.4 && phase < 3 then 3
    else if ratio <= 0.7 && phase < 2 then 2
    else phase
  }

  /** The phase after the boss has seen the given health values in order, one update each. */
  function PhaseAfter(phase: int, healths: seq<real>): int
    decreases |healths|
  {
    if healths == [] then phase else PhaseAfter(NextPhase(phase, healths[0]), healths[1..])
  }

  /** The highest tier any of the healths calls for, and at least `floor`. */
  function HighestTier(floor: int, healths: seq<real>): int
    decreases |healths|
  {
    if healths == [] then floor else HighestTier(MaxInt(floor, Tier(healths[0])), healths[1..])
  }

  /** Along any health trajectory, including one that jumps over a threshold or climbs back up,
      the boss's phase is the highest tier it has reached, so it never decreases. */
  lemma {:induction false} PhaseIsHighestTier(phase: int, healths: seq<real>)
    requires phase >= 1
    ensures PhaseAfter(phase, healths) == HighestTier(phase, healths)
    ensures PhaseAfter(phase, healths) >= phase
    decreases |healths|
  {
    if healths != [] {
      PhaseIsHighestTier(NextPhase(phase, healths[0]), healths[1..]);
    }
  }

  /** One update can skip phase 2: from full health to 40% or less the phase goes 1 to 3. */
  lemma PhaseSkipsToThree()
    ensures PhaseAfter(1, [300.0, 100.0]) == 3
  {
    assert [300.0, 100.0][1..] == [100.0];
  }

  // ---------------------------------------------------------------- updates

  /** What one enemy update produced. */
  datatype Outcome = Outcome(enemy: Enemy, summons: seq<Enemy>, shots: seq<Projectile>,
                             bursts: seq<Burst>, stomp: bool, drops: seq<LootItem>)

  /** The boss's phase attack, without the change to its attack time. */
  datatype Attack = Attack(summons: seq<Enemy>, shots: seq<Projectile>, bursts: seq<Burst>, stomp: bool)

  /** `summonAttack`: two crawlers at angles 0 and pi on a ring of radius 60 around the boss's corner. */
  function Summon(e: Enemy): (r: seq<Enemy>)
    ensures |r| == SummonCount
    ensures forall i :: 0 <= i < |r| ==> r[i].kind == StreetCrawler && !r[i].isDead
    ensures r[0].x == e.x + SummonRadius && r[1].x == e.x - SummonRadius
  {
    [NewStreetCrawler(e.x + SummonRadius, e.y), NewStreetCrawler(e.x - SummonRadius, e.y)]
  }

  /** cos 45 degrees, as a double. */
  const Diag: real := 0.7071067811865476

  /** The unit directions at angles 2*pi*i/8, i = 0 .. 7. */
  const Directions: seq<(real, real)> :=
    [(1.0, 0.0), (Diag, Diag), (0.0, 1.0), (-Diag, Diag),
     (-1.0, 0.0), (-Diag, -Diag), (0.0, -1.0), (Diag, -Diag)]

  /** `overloadAttack`: eight hostile projectiles from the boss's centre, one per direction. */
  function Overload(e: Enemy): (r: seq<Projectile>)
    ensures |r| == OverloadCount
    ensures forall i :: 0 <= i < |r| ==>
              !r[i].friendly && r[i].damage == ContactDamage(AmpFiend(1)) && !r[i].isDead &&
              r[i].x == CenterX(e) && r[i].y == CenterY(e)
    ensures forall i :: 0 <= i < |r| ==>
              r[i].vx == Directions[i].0 * OverloadSpeed && r[i].vy == Directions[i].1 * OverloadSpeed
  {
    seq(OverloadCount, i requires 0 <= i < OverloadCount =>
      NewProjectile(CenterX(e), CenterY(e), Directions[i].0, Directions[i].1, OverloadSpeed,
                    ContactDamage(AmpFiend(1)), false))
  }

  /** `performPhaseAttack` dispatched on the phase: stomp, summon or overload. */
  function PhaseAttack(e: Enemy, px: real, py: real): (a: Attack)
    requires e.kind.AmpFiend?
    ensures e.kind.phase == 1 ==> a.summons == [] && a.shots == [] &&
                                  a.bursts == [Burst(CenterX(e), CenterY(e), 15)] &&
                                  (a.stomp <==> DistSq(px, py, e.x, e.y) < StompRadius * StompRadius)
    ensures e.kind.phase == 2 ==> |a.summons| == SummonCount && a.shots == [] && !a.stomp &&
                                  a.bursts == [Burst(CenterX(e), CenterY(e), 10)]
    ensures e.kind.phase == 3 ==> a.summons == [] && |a.shots| == OverloadCount && !a.stomp &&
                                  a.bursts == [Burst(CenterX(e), CenterY(e), 20)]
    ensures !(1 <= e.kind.phase <= 3) ==> a == Attack([], [], [], false)
  {
    var cx, cy := CenterX(e), CenterY(e);
    if e.kind.phase == 1 then
      Attack([], [], [Burst(cx, cy, 15)], DistSq(px, py, e.x, e.y) < StompRadius * StompRadius)
    else if e.kind.phase == 2 then Attack(Summon(e), [], [Burst(cx, cy, 10)], false)
    else if e.kind.phase == 3 then Attack([], Overload(e), [Burst(cx, cy, 20)], false)
    else Attack([], [], [], false)
  }

  /** `StreetCrawler.update` with the player's corner at (px, py). The approach step is not
      modelled; the crawler attacks (a cosmetic burst, no damage) within range once its cooldown
      has passed, and is flagged dead at zero health. */
  function CrawlerUpdate(e: Enemy, px: real, py: real, now: int): (o: Outcome)
    requires e.kind.StreetCrawler?
    ensures o.summons == [] && o.shots == [] && !o.stomp && o.drops == []
    ensures o.enemy.kind == e.kind && o.enemy.health == e.health && o.enemy.x == e.x && o.enemy.y == e.y
    ensures e.isDead ==> o.enemy == e && o.bursts == []
    ensures !e.isDead ==> (o.enemy.isDead <==> e.health <= 0.0)
    ensures var attacks := !e.isDead && DistSq(px, py, e.x, e.y) <= AttackRange * AttackRange &&
                           Ready(now, e.lastAttackTime, AttackCooldown(e.kind));
            o.enemy.lastAttackTime == (if attacks then now else e.lastAttackTime) &&
            o.bursts == (if attacks then [Burst(CenterX(e), CenterY(e), 3)] else [])
  {
    if e.isDead then Outcome(e, [], [], [], false, [])
    else
      var attacks := DistSq(px, py, e.x, e.y) <= AttackRange * AttackRange &&
                     Ready(now, e.lastAttackTime, AttackCooldown(e.kind));
      var e1 := if attacks then e.(lastAttackTime := now) else e;
      Outcome(e1.(isDead := e.health <= 0.0), [], [],
              if attacks then [Burst(CenterX(e), CenterY(e), 3)] else [], false, [])
  }

  /** `AmpFiend.update`: raise the phase, attack by phase once the cooldown has passed, and on
      reaching zero health become dead and drop exactly one epic weapon where it stands. */
  function FiendUpdate(e: Enemy, px: real, py: real, now: int): (o: Outcome)
    requires e.kind.AmpFiend?
    ensures o.enemy.kind.AmpFiend? && o.enemy.kind.phase >= e.kind.phase
    ensures o.enemy.health == e.health && o.enemy.x == e.x && o.enemy.y == e.y
    ensures e.isDead ==> o == Outcome(e, [], [], [], false, [])
    ensures !e.isDead ==> o.enemy.kind.phase == NextPhase(e.kind.phase, e.health)
    ensures !e.isDead ==> (o.enemy.isDead <==> e.health <= 0.0)
    ensures !e.isDead && e.health <= 0.0 ==> o.drops == [NewLoot(e.x, e.y, EpicWeapon)]
    ensures !(!e.isDead && e.health <= 0.0) ==> o.drops == []
    ensures var attacks := !e.isDead && Ready(now, e.lastAttackTime, AttackCooldown(e.kind));
            o.enemy.lastAttackTime == (if attacks then now else e.lastAttackTime) &&
            (!attacks ==> o.summons == [] && o.shots == [] && o.bursts == [] && !o.stomp) &&
            (attacks ==> var a := PhaseAttack(o.enemy, px, py);
                           o.summons == a.summons && o.shots == a.shots && o.bursts == a.bursts &&
                           o.stomp == a.stomp) &&
            (attacks && o.enemy.kind.phase == 2 ==>
               |o.summons| == SummonCount && o.shots == [] && !o.stomp &&
               forall i :: 0 <= i < |o.summons| ==> o.summons[i].kind == StreetCrawler) &&
            (attacks && o.enemy.kind.phase == 3 ==>
               o.summons == [] && |o.shots| == OverloadCount && !o.stomp &&
               forall i :: 0 <= i < |o.shots| ==> !o.shots[i].friendly && o.shots[i].damage == 15.0)
  {
    if e.isDead then Outcome(e, [], [], [], false, [])
    else
      var e1 := e.(kind := AmpFiend(NextPhase(e.kind.phase, e.health)));
      var attacks := Ready(now, e.lastAttackTime, AttackCooldown(e.kind));
      var a := if attacks then PhaseAttack(e1, px, py) else Attack([], [], [], false);
      var e2 := if attacks then e1.(lastAttackTime := now) else e1;
      var dies := e.health <= 0.0;
      Outcome(e2.(isDead := dies), a.summons, a.shots, a.bursts, a.stomp,
              if dies then [NewLoot(e.x, e.y, EpicWeapon)] else [])
  }

  /** One enemy's `update`, dispatched on its kind. Whatever it adds is alive and hostile, and
      the enemy it returns is dead exactly when it was dead or is at zero health. */
  function EnemyUpdate(e: Enemy, px: real, py: real, now: int): (o: Outcome)
    ensures o.enemy.isDead <==> e.isDead || e.health <= 0.0
    ensures o.enemy.kind.StreetCrawler? == e.kind.StreetCrawler?
    ensures o.enemy.x == e.x && o.enemy.y == e.y && o.enemy.health == e.health
    ensures forall s :: s in o.summons ==> !s.isDead
    ensures forall p :: p in o.shots ==> !p.friendly && p.damage >= 0.0
    ensures |o.drops| <= 1 && forall l :: l in o.drops ==> !l.isDead && l.kind == EpicWeapon
    ensures o.drops != [] ==> e.kind.AmpFiend?
  {
    match e.kind
    case StreetCrawler => CrawlerUpdate(e, px, py, now)
    case AmpFiend(_) => FiendUpdate(e, px, py, now)
  }
}
