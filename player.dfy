/** The player character: movement, dash, stamina, the three attacks and damage intake.
    Keyboard state and the aiming direction arrive as an `Input`; `now` is the wall clock in
    milliseconds and `dt` the frame's delta time in seconds. What an attack adds to the game
    (projectiles, particles, an area blast) is returned for the game to add. */
module Players {
  import opened Geometry
  import opened Entities

  const PlayerSize: real := 30.0
  const PlayerMaxHealth: real := 100.0
  const MaxStamina: real := 100.0
  const WalkSpeed: real := 200.0
  const DashSpeed: real := 400.0
  /** Seconds of simulated time a dash lasts. */
  const DashDuration: real := 0.2
  const DashCooldownMs: int := 1000
  const DashCost: real := 20.0
  const LightCooldownMs: int := 500
  const LightSpeed: real := 300.0
  const HeavyCooldownMs: int := 1000
  const HeavyCost: real := 25.0
  const HeavySpeed: real := 400.0
  const HeavySize: real := 15.0
  const AoeCooldownMs: int := 3000
  const AoeCost: real := 30.0
  /** Enemies closer than this to the player's corner are hit by the area attack. */
  const AoeRadius: real := 100.0
  const AoeFactor: real := 1.5
  /** Contact damage is ignored for this many milliseconds after the last hit. */
  const InvulnerabilityMs: int := 1000
  /** Particles a hit leaves at the player's centre. */
  const HurtParticles: nat := 5
  const StaminaRegen: real := 50.0
  const DiagonalScale: real := 0.707

  /** The keys the game reads (each already the "or" of a letter and an arrow key where the game
      accepts both) and the unit direction from the player's centre toward the cursor. */
  datatype Input = Input(up: bool, down: bool, left: bool, right: bool,
                         shift: bool, space: bool, q: bool, aimX: real, aimY: real)

  /** An area attack: the player's corner it is measured from, and the damage it deals. */
  datatype Blast = Blast(x: real, y: real, damage: real)

  /** What one input step asks the game to add, in the order the attacks fired. */
  datatype Actions = Actions(shots: seq<Projectile>, bursts: seq<Burst>, blast: Option<Blast>)

  const NoActions: Actions := Actions([], [], None)

  /** The movement direction: down wins over up and right over left, and a diagonal is scaled by
      0.707 on both axes, so the direction never has length above 1. */
  function Heading(input: Input): (h: (real, real))
    ensures input.down ==> h.1 > 0.0
    ensures input.up && !input.down ==> h.1 < 0.0
    ensures !input.up && !input.down ==> h.1 == 0.0
    ensures input.right ==> h.0 > 0.0
    ensures input.left && !input.right ==> h.0 < 0.0
    ensures !input.left && !input.right ==> h.0 == 0.0
    ensures h.0 * h.0 + h.1 * h.1 <= 1.0
  {
    var mx := if input.right then 1.0 else if input.left then -1.0 else 0.0;
    var my := if input.down then 1.0 else if input.up then -1.0 else 0.0;
    if mx != 0.0 && my != 0.0 then (mx * DiagonalScale, my * DiagonalScale) else (mx, my)
  }

  /** The dash gate of `handleInput`: the dash key, no dash running, the cooldown over and 20
      stamina left. */
  predicate DashGate(input: Input, now: int, isDashing: bool, lastDashTime: int, stamina: real)
  {
    input.shift && !isDashing && Ready(now, lastDashTime, DashCooldownMs) && stamina >= DashCost
  }

  /** The light attack fires on the attack key without the dash key, once its cooldown is over. */
  predicate LightGate(input: Input, now: int, lastAttackTime: int)
  {
    input.space && !input.shift && Ready(now, lastAttackTime, LightCooldownMs)
  }

  /** The heavy attack fires on the attack key with the dash key, once its cooldown is over and
      25 stamina remain. */
  predicate HeavyGate(input: Input, now: int, lastHeavyAttackTime: int, stamina: real)
  {
    input.space && input.shift && Ready(now, lastHeavyAttackTime, HeavyCooldownMs) && stamina >= HeavyCost
  }

  /** The area attack fires on Q, once its cooldown is over and 30 stamina remain. */
  predicate AoeGate(input: Input, now: int, lastAoeTime: int, stamina: real)
  {
    input.q && Ready(now, lastAoeTime, AoeCooldownMs) && stamina >= AoeCost
  }

  /** The light shot of a player whose corner is at (x, y). */
  function LightShot(x: real, y: real, input: Input, weapon: Weapon): Projectile
  {
    NewProjectile(x + PlayerSize / 2.0, y + PlayerSize / 2.0, input.aimX, input.aimY, LightSpeed, weapon.damage, true)
  }

  /** The heavy shot: faster, 15 wide and of double damage. */
  function HeavyShot(x: real, y: real, input: Input, weapon: Weapon): Projectile
  {
    NewProjectile(x + PlayerSize / 2.0, y + PlayerSize / 2.0, input.aimX, input.aimY, HeavySpeed,
                  weapon.damage * 2.0, true).(size := HeavySize)
  }

  /** What the attacks that fired ask the game to add, for a player whose corner is at (x, y): the
      light shot and its 3 particles, the heavy shot and its 8, both from the centre, and the area
      blast of 1.5 times the weapon's damage measured from the corner. */
  function Volley(x: real, y: real, input: Input, weapon: Weapon, light: bool, heavy: bool, aoe: bool): Actions
  {
    var cx, cy := x + PlayerSize / 2.0, y + PlayerSize / 2.0;
    Actions((if light then [LightShot(x, y, input, weapon)] else []) +
            (if heavy then [HeavyShot(x, y, input, weapon)] else []),
            (if light then [Burst(cx, cy, 3)] else []) + (if heavy then [Burst(cx, cy, 8)] else []),
            if aoe then Some(Blast(x, y, weapon.damage * AoeFactor)) else None)
  }

  /** Every shot of a volley is a live friendly shot whose damage is at least the weapon's, and
      the blast deals at least the weapon's damage; the shots and their particle bursts pair up. */
  lemma VolleyIsFriendly(x: real, y: real, input: Input, weapon: Weapon, light: bool, heavy: bool, aoe: bool)
    requires weapon.damage >= 0.0
    ensures var v := Volley(x, y, input, weapon, light, heavy, aoe);
            |v.shots| == |v.bursts| == (if light then 1 else 0) + (if heavy then 1 else 0) &&
            (forall p :: p in v.shots ==> p.friendly && !p.isDead && p.damage >= weapon.damage) &&
            (v.blast.Some? <==> aoe) &&
            (v.blast.Some? ==> v.blast.value.damage >= weapon.damage)
  {
  }

  /** The particles `takeDamage` leaves at the centre of a player whose corner is at (x, y): five,
      and none while dashing, when the hit is ignored. */
  function HurtBursts(dashing: bool, x: real, y: real): seq<Burst>
  {
    if dashing then [] else [Burst(x + PlayerSize / 2.0, y + PlayerSize / 2.0, HurtParticles)]
  }

  /** All fields of the player, as one value. */
  datatype Body = Body(x: real, y: real, health: real, stamina: real, isDashing: bool, dashTime: real,
                       lastDashTime: int, weapon: Weapon, lastAttackTime: int, lastHeavyAttackTime: int,
                       lastAoeTime: int, lastDamageTime: int, isDead: bool)

  /** Health never exceeds its cap, stamina stays in [0, max], a dash in progress is shorter than
      its duration, no dash time is left over when not dashing, and the weapon does no negative
      damage. */
  predicate Sound(b: Body)
  {
    b.health <= PlayerMaxHealth &&
    0.0 <= b.stamina <= MaxStamina &&
    0.0 <= b.dashTime < DashDuration &&
    (!b.isDashing ==> b.dashTime == 0.0) &&
    b.weapon.damage >= 0.0
  }

  /** The dash part of `handleInput` on a value: start a dash when its gate is open, then advance
      a running dash by dt and end it once it has lasted its duration. */
  function DashPhase(b: Body, input: Input, now: int, dt: real): Body
  {
    var dash := DashGate(input, now, b.isDashing, b.lastDashTime, b.stamina);
    var t := (if b.isDashing then b.dashTime else 0.0) + dt;
    var dashing := (b.isDashing || dash) && t < DashDuration;
    b.(stamina := if dash then b.stamina - DashCost else b.stamina,
       isDashing := dashing, dashTime := if dashing then t else 0.0,
       lastDashTime := if dash then now else b.lastDashTime)
  }

  /** The movement part: walk or dash speed along the heading for dt seconds. */
  function MovePhase(b: Body, input: Input, dt: real): Body
  {
    var h := Heading(input);
    var speed := if b.isDashing then DashSpeed else WalkSpeed;
    b.(x := b.x + h.0 * speed * dt, y := b.y + h.1 * speed * dt)
  }

  /** The attack part: light, heavy and area attack in that order, each behind its gate and
      checked against the stamina the ones before it left. */
  function AttackPhase(b: Body, input: Input, now: int): (Body, Actions)
  {
    var light := LightGate(input, now, b.lastAttackTime);
    var heavy := HeavyGate(input, now, b.lastHeavyAttackTime, b.stamina);
    var s := if heavy then b.stamina - HeavyCost else b.stamina;
    var aoe := AoeGate(input, now, b.lastAoeTime, s);
    (b.(stamina := if aoe then s - AoeCost else s,
        lastAttackTime := if light then now else b.lastAttackTime,
        lastHeavyAttackTime := if heavy then now else b.lastHeavyAttackTime,
        lastAoeTime := if aoe then now else b.lastAoeTime),
     Volley(b.x, b.y, input, b.weapon, light, heavy, aoe))
  }

  /** `handleInput` on a value: dash, move, then attack from the moved corner. */
  function Handle(b: Body, input: Input, now: int, dt: real): (Body, Actions)
  {
    AttackPhase(MovePhase(DashPhase(b, input, now, dt), input, dt), input, now)
  }

  /** The end of `Player.update` on a value: stamina regeneration of 50 per second up to the
      maximum unless still dashing, the clamp to the canvas, and the death flag. */
  function Recovered(m: Body, dies: bool, dt: real, width: real, height: real): Body
  {
    var s := if m.stamina < MaxStamina && !m.isDashing then Min(m.stamina + StaminaRegen * dt, MaxStamina)
             else m.stamina;
    m.(x := Clamp(m.x, width - PlayerSize), y := Clamp(m.y, height - PlayerSize), stamina := s, isDead := dies)
  }

  /** `Player.update` on a value: the player after the step, what its attacks add, and whether it
      died in this step. A dead player does nothing. Otherwise: `handleInput`, then the stamina
      regeneration, the clamp and death once health is at or below zero. */
  function Step(b: Body, input: Input, now: int, dt: real, width: real, height: real): (Body, Actions, bool)
  {
    if b.isDead then (b, NoActions, false)
    else
      var (m, acts) := Handle(b, input, now, dt);
      var dies := b.health <= 0.0;
      (Recovered(m, dies, dt, width, height), acts, dies)
  }

  /** A step keeps the player sound, leaves health, weapon and the damage stamp alone (only the
      game changes those), keeps a living player on a canvas at least its size, and reports death
      exactly once: when a living player is found at or below zero health. */
  lemma StepKeepsSound(b: Body, input: Input, now: int, dt: real, width: real, height: real)
    requires Sound(b) && dt >= 0.0
    ensures var r := Step(b, input, now, dt, width, height);
            Sound(r.0) &&
            r.0.health == b.health && r.0.weapon == b.weapon && r.0.lastDamageTime == b.lastDamageTime &&
            (forall p :: p in r.1.shots ==> p.friendly) &&
            (r.2 <==> !b.isDead && b.health <= 0.0) &&
            (r.0.isDead <==> b.isDead || b.health <= 0.0) &&
            (!b.isDead && width >= PlayerSize ==> 0.0 <= r.0.x <= width - PlayerSize) &&
            (!b.isDead && height >= PlayerSize ==> 0.0 <= r.0.y <= height - PlayerSize)
  {
  }

  /** A dash ends once it has run its duration: a step of at least the time a running dash has
      left always finds the player no longer dashing, and pays nothing for it. */
  lemma DashEnds(b: Body, input: Input, now: int, dt: real, width: real, height: real)
    requires Sound(b) && !b.isDead && b.isDashing && dt >= DashDuration - b.dashTime
    ensures var r := Step(b, input, now, dt, width, height).0;
            !r.isDashing && r.dashTime == 0.0 && r.lastDashTime == b.lastDashTime
  {
  }

  /** One step spends at most what all three stamina costs add up to, and a player with less than
      20 stamina cannot start a dash. */
  lemma StepSpendsAtMost(b: Body, input: Input, now: int, dt: real, width: real, height: real)
    requires Sound(b) && dt >= 0.0
    ensures var r := Step(b, input, now, dt, width, height).0;
            r.stamina >= b.stamina - (DashCost + HeavyCost + AoeCost) &&
            (b.stamina < DashCost ==> r.lastDashTime == b.lastDashTime)
  {
  }

  /** One frame as the player sees it: the keys, the wall clock and the delta time. */
  datatype Turn = Turn(input: Input, now: int, dt: real)

  /** The player after a run of turns on a fixed canvas. */
  function Run(b: Body, turns: seq<Turn>, width: real, height: real): Body
    decreases |turns|
  {
    if turns == [] then b
    else Run(Step(b, turns[0].input, turns[0].now, turns[0].dt, width, height).0, turns[1..], width, height)
  }

  /** However many turns pass, the player stays sound and its health never moves on its own. */
  lemma {:induction false} RunKeepsSound(b: Body, turns: seq<Turn>, width: real, height: real)
    requires Sound(b)
    requires forall i :: 0 <= i < |turns| ==> turns[i].dt >= 0.0
    ensures Sound(Run(b, turns, width, height))
    ensures Run(b, turns, width, height).health == b.health
    decreases |turns|
  {
    if turns != [] {
      StepKeepsSound(b, turns[0].input, turns[0].now, turns[0].dt, width, height);
      var b' := Step(b, turns[0].input, turns[0].now, turns[0].dt, width, height).0;
      assert forall i :: 0 <= i < |turns[1..]| ==> turns[1..][i].dt >= 0.0 by {
        forall i | 0 <= i < |turns[1..]| ensures turns[1..][i].dt >= 0.0 {
          assert turns[1..][i] == turns[i + 1];
        }
      }
      RunKeepsSound(b', turns[1..], width, height);
    }
  }

  class Player {
    var x: real
    var y: real
    var health: real
    var stamina: real
    var isDashing: bool
    /** Seconds the current dash has lasted. */
    var dashTime: real
    var lastDashTime: int
    var weapon: Weapon
    var lastAttackTime: int
    var lastHeavyAttackTime: int
    var lastAoeTime: int
    var lastDamageTime: int
    var isDead: bool

    /** The player's fields as one value. */
    ghost function Snapshot(): Body
      reads this
    {
      Body(x, y, health, stamina, isDashing, dashTime, lastDashTime, weapon, lastAttackTime,
           lastHeavyAttackTime, lastAoeTime, lastDamageTime, isDead)
    }

    ghost predicate Valid()
      reads this
    {
      Sound(Snapshot())
    }

    constructor (x0: real, y0: real)
      ensures Valid()
      ensures x == x0 && y == y0 && health == PlayerMaxHealth && stamina == MaxStamina
      ensures !isDashing && !isDead && weapon == StartingWeapon
      ensures lastDashTime == 0 && lastAttackTime == 0 && lastHeavyAttackTime == 0
      ensures lastAoeTime == 0 && lastDamageTime == 0
    {
      x, y := x0, y0;
      health, stamina := PlayerMaxHealth, MaxStamina;
      isDashing, dashTime, lastDashTime := false, 0.0, 0;
      weapon := StartingWeapon;
      lastAttackTime, lastHeavyAttackTime, lastAoeTime := 0, 0, 0;
      lastDamageTime := 0;
      isDead := false;
    }

    function Box(): Box
      reads this`x, this`y
    {
      Geometry.Box(x, y, PlayerSize, PlayerSize)
    }

    function CenterX(): real reads this`x { x + PlayerSize / 2.0 }
    function CenterY(): real reads this`y { y + PlayerSize / 2.0 }

    /** `startDash`: begin a dash now and pay its stamina; the caller has checked the gate. */
    method StartDash(now: int)
      modifies this`isDashing, this`dashTime, this`lastDashTime, this`stamina
      ensures isDashing && dashTime == 0.0 && lastDashTime == now
      ensures stamina == old(stamina) - DashCost
    {
      isDashing := true;
      dashTime := 0.0;
      lastDashTime := now;
      stamina := stamina - DashCost;
    }

    /** `lightAttack`: a friendly shot of the weapon's damage from the centre toward the cursor,
        and three particles. Costs no stamina. */
    method LightAttack(now: int, input: Input) returns (shot: Projectile, burst: Burst)
      modifies this`lastAttackTime
      ensures lastAttackTime == now
      ensures shot == NewProjectile(CenterX(), CenterY(), input.aimX, input.aimY, LightSpeed, weapon.damage, true)
      ensures burst == Burst(CenterX(), CenterY(), 3)
    {
      lastAttackTime := now;
      shot := NewProjectile(CenterX(), CenterY(), input.aimX, input.aimY, LightSpeed, weapon.damage, true);
      burst := Burst(CenterX(), CenterY(), 3);
    }

    /** `heavyAttack`: pay 25 stamina for a larger, faster friendly shot of double damage,
        and eight particles. */
    method HeavyAttack(now: int, input: Input) returns (shot: Projectile, burst: Burst)
      modifies this`lastHeavyAttackTime, this`stamina
      ensures lastHeavyAttackTime == now && stamina == old(stamina) - HeavyCost
      ensures shot == NewProjectile(CenterX(), CenterY(), input.aimX, input.aimY, HeavySpeed,
                                    weapon.damage * 2.0, true).(size := HeavySize)
      ensures burst == Burst(CenterX(), CenterY(), 8)
    {
      lastHeavyAttackTime := now;
      stamina := stamina - HeavyCost;
      shot := NewProjectile(CenterX(), CenterY(), input.aimX, input.aimY, HeavySpeed, weapon.damage * 2.0, true);
      shot := shot.(size := HeavySize);
      burst := Burst(CenterX(), CenterY(), 8);
    }

    /** `aoeAttack`, its damage and stamina only: pay 30 stamina for a blast of 1.5 times the
        weapon's damage around the player's corner. */
    method AoeAttack(now: int) returns (blast: Blast)
      modifies this`lastAoeTime, this`stamina
      ensures lastAoeTime == now && stamina == old(stamina) - AoeCost
      ensures blast == Blast(x, y, weapon.damage * AoeFactor)
    {
      lastAoeTime := now;
      stamina := stamina - AoeCost;
      blast := Blast(x, y, weapon.damage * AoeFactor);
    }

    /** `updateStamina`: regenerate 50 per second up to the maximum, never while dashing. */
    method UpdateStamina(dt: real)
      requires Valid() && dt >= 0.0
      modifies this`stamina
      ensures Valid()
      ensures old(stamina) <= stamina <= MaxStamina
      ensures isDashing ==> stamina == old(stamina)
      ensures !isDashing && old(stamina) < MaxStamina ==>
                stamina == Min(old(stamina) + StaminaRegen * dt, MaxStamina)
    {
      if stamina < MaxStamina && !isDashing {
        stamina := stamina + StaminaRegen * dt;
        stamina := Min(stamina, MaxStamina);
      }
    }

    /** `constrainToCanvas`: clamp the corner into [0, width - 30] x [0, height - 30]. */
    method ConstrainToCanvas(width: real, height: real)
      modifies this`x, this`y
      ensures x == Clamp(old(x), width - PlayerSize) && y == Clamp(old(y), height - PlayerSize)
      ensures width >= PlayerSize ==> 0.0 <= x <= width - PlayerSize
      ensures height >= PlayerSize ==> 0.0 <= y <= height - PlayerSize
      ensures 0.0 <= old(x) <= width - PlayerSize ==> x == old(x)
      ensures 0.0 <= old(y) <= height - PlayerSize ==> y == old(y)
    {
      x := Clamp(x, width - PlayerSize);
      y := Clamp(y, height - PlayerSize);
    }

    /** `takeDamage`: ignored entirely while dashing; otherwise health falls by exactly the damage,
        the invulnerability stamp is reset to now and five particles appear at the centre. */
    method TakeDamage(damage: real, now: int) returns (bursts: seq<Burst>)
      requires Valid() && damage >= 0.0
      modifies this`health, this`lastDamageTime
      ensures Valid()
      ensures isDashing ==> health == old(health) && lastDamageTime == old(lastDamageTime) && bursts == []
      ensures !isDashing ==> health == old(health) - damage && lastDamageTime == now &&
                             bursts == [Burst(CenterX(), CenterY(), HurtParticles)]
    {
      if isDashing {
        return [];
      }
      health := health - damage;
      lastDamageTime := now;
      bursts := [Burst(CenterX(), CenterY(), HurtParticles)];
    }

    /** The dash part of `handleInput`: start a dash when the dash key is held, no dash is running,
        the cooldown has passed and 20 stamina remain; then advance a running dash by dt and end
        it once it has lasted its duration. */
    method AdvanceDash(input: Input, now: int, dt: real)
      requires Valid() && dt >= 0.0
      modifies this`stamina, this`isDashing, this`dashTime, this`lastDashTime
      ensures Valid()
      ensures Snapshot() == DashPhase(old(Snapshot()), input, now, dt)
    {
      if input.shift && !isDashing && Ready(now, lastDashTime, DashCooldownMs) && stamina >= DashCost {
        StartDash(now);
      }
      if isDashing {
        dashTime := dashTime + dt;
        if dashTime >= DashDuration {
          isDashing := false;
          dashTime := 0.0;
        }
      }
    }

    /** The movement part of `handleInput`: walk or dash speed along the heading for dt seconds. */
    method Move(input: Input, dt: real)
      modifies this`x, this`y
      ensures Snapshot() == MovePhase(old(Snapshot()), input, dt)
    {
      var h := Heading(input);
      var speed := if isDashing then DashSpeed else WalkSpeed;
      x := x + h.0 * speed * dt;
      y := y + h.1 * speed * dt;
    }

    /** The attack part of `handleInput`: light (attack key without the dash key), heavy (attack
        key with the dash key, 25 stamina) and area (Q, 30 stamina), each behind its own cooldown
        and checked in that order against the stamina left by the ones before. */
    method FireAttacks(input: Input, now: int) returns (acts: Actions)
      requires Valid()
      modifies this`stamina, this`lastAttackTime, this`lastHeavyAttackTime, this`lastAoeTime
      ensures Valid()
      ensures (Snapshot(), acts) == AttackPhase(old(Snapshot()), input, now)
    {
      var shots: seq<Projectile> := [];
      var bursts: seq<Burst> := [];
      var blast: Option<Blast> := None;
      if input.space && !input.shift && Ready(now, lastAttackTime, LightCooldownMs) {
        var shot, burst := LightAttack(now, input);
        shots, bursts := shots + [shot], bursts + [burst];
      }
      if input.space && input.shift && Ready(now, lastHeavyAttackTime, HeavyCooldownMs) && stamina >= HeavyCost {
        var shot, burst := HeavyAttack(now, input);
        shots, bursts := shots + [shot], bursts + [burst];
      }
      if input.q && Ready(now, lastAoeTime, AoeCooldownMs) && stamina >= AoeCost {
        var b := AoeAttack(now);
        blast := Some(b);
      }
      acts := Actions(shots, bursts, blast);
      ghost var b := old(Snapshot());
      ghost var light := LightGate(input, now, b.lastAttackTime);
      ghost var heavy := HeavyGate(input, now, b.lastHeavyAttackTime, b.stamina);
      ghost var aoe := AoeGate(input, now, b.lastAoeTime, if heavy then b.stamina - HeavyCost else b.stamina);
      ghost var v := Volley(b.x, b.y, input, b.weapon, light, heavy, aoe);
      assert shots == v.shots;
      assert bursts == v.bursts;
    }

    /** `handleInput`: dash, move, then attack. Each stamina spend (dash 20, heavy 25, area 30)
        happens only when the stamina left by the spends before it in the same step covers it. */
    method HandleInput(input: Input, now: int, dt: real) returns (acts: Actions)
      requires Valid() && dt >= 0.0
      modifies this`x, this`y, this`stamina, this`isDashing, this`dashTime, this`lastDashTime
      modifies this`lastAttackTime, this`lastHeavyAttackTime, this`lastAoeTime
      ensures Valid()
      ensures (Snapshot(), acts) == Handle(old(Snapshot()), input, now, dt)
    {
      AdvanceDash(input, now, dt);
      Move(input, dt);
      acts := FireAttacks(input, now);
    }

    /** The end of `update`: stamina regeneration, the clamp to the canvas and the death check. */
    method Recover(dt: real, width: real, height: real) returns (died: bool)
      requires Valid() && !isDead && dt >= 0.0
      modifies this`stamina, this`x, this`y, this`isDead
      ensures Snapshot() == Recovered(old(Snapshot()), health <= 0.0, dt, width, height)
      ensures died <==> health <= 0.0
    {
      UpdateStamina(dt);
      ConstrainToCanvas(width, height);
      died := false;
      if health <= 0.0 {
        isDead := true;
        died := true;
      }
    }

    /** `Player.update`: a dead player does nothing; otherwise handle input, regenerate stamina,
        stay on the canvas, and report death the first time health is found at or below zero. */
    method Update(input: Input, now: int, dt: real, width: real, height: real)
      returns (acts: Actions, died: bool)
      requires Valid() && dt >= 0.0
      modifies this
      ensures Valid()
      ensures (Snapshot(), acts, died) == Step(old(Snapshot()), input, now, dt, width, height)
      ensures died <==> !old(isDead) && old(health) <= 0.0
      ensures health == old(health) && weapon == old(weapon) && lastDamageTime == old(lastDamageTime)
      ensures forall p :: p in acts.shots ==> p.friendly && p.damage >= 0.0 && !p.isDead
      ensures acts.blast.Some? ==> acts.blast.value.damage >= 0.0
    {
      ghost var b := Snapshot();
      StepKeepsSound(b, input, now, dt, width, height);
      if isDead {
        return NoActions, false;
      }
      acts := HandleInput(input, now, dt);
      died := Recover(dt, width, height);
    }
  }
}
