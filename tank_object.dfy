/**
 * TankObject: hit points and the faction-dependent death rule, the cannon's salvo and
 * cooldown timers, the post-processing of the speed integration, the throttle/turn intent
 * bookkeeping, the hitbox-pair collision scan and the distance culling rule.
 */
module Tanks {

  import opened Wrappers
  import opened Events
  import opened Timers
  import opened Geometry
  import opened TankPhysics

  datatype TankColor = PLAYER | GREEN

  datatype Faction = PLAYER | AI

  // Top speed in m/s, and the reverse top speed.
  const TOP_SPEED: real := 10.0
  const TOP_SPEED_REVERSE: real := -TOP_SPEED / 2.0
  // Degrees turned per second at full rate.
  const MAX_DEGREE_PER_SECONDS_TURN: real := 180.0
  // Acceleration at full rate, in m/s^2.
  const MAX_ACCELERATION: real := 25.0
  // The drag exponent `x`.
  const DRAG_EXPONENT: real := 4.0

  const CANNON_SALVO_PROJECTILE_NUMBER: int := 4
  // Milliseconds before the cannon may fire a new salvo.
  const CANNON_COOLDOWN: int := 1000
  // A tenth of the cooldown is spread evenly over the salvo's remaining shots.
  const CANNON_BULLET_COOLDOWN: real :=
    (10.0 / 100.0) * (CANNON_COOLDOWN as real) / ((CANNON_SALVO_PROJECTILE_NUMBER - 1) as real)

  const MAX_HP: int := 100
  // Beyond this distance from the camera a tank asks to be despawned.
  const DESPAWN_DISTANCE: real := 10000.0
  // Math.PI.
  const PI: real := 3.141592653589793
  /** A new tank faces 3π/2 radians. */
  const SPAWN_DIRECTION: real := 3.0 * PI / 2.0

  function GetTopSpeed(): real {
    TOP_SPEED
  }

  /** The terrain speed modifier: no terrain is consulted yet, so it is always 1. */
  function GetSpeedModifier(): real {
    1.0
  }

  /** The terrain acceleration modifier: always 1, like the speed modifier. */
  function GetAccelModifier(): real {
    1.0
  }

  /** Math.Pow(v, x) for the drag exponent x = 4. */
  function PowDrag(v: real): real {
    v * v * v * v
  }

  /** The decay term moves a moving tank's speed by `decayStep`, away from zero when positive. */
  function Decayed(oldSpeed: real, decayStep: real): real {
    if oldSpeed < 0.0 then oldSpeed - decayStep
    else if oldSpeed > 0.0 then oldSpeed + decayStep
    else oldSpeed
  }

  /** Without commanded acceleration, a decay that crossed zero stops the tank instead. */
  function Snapped(oldSpeed: real, decayed: real, acceleration: real): real {
    if acceleration == 0.0 && ((oldSpeed < 0.0 && decayed > 0.0) || (oldSpeed > 0.0 && decayed < 0.0)) then 0.0
    else decayed
  }

  /** The commanded acceleration attenuated by (speed / top speed)^x. */
  function TrueAcceleration(oldSpeed: real, acceleration: real): real {
    acceleration - PowDrag(oldSpeed / TOP_SPEED) * acceleration
  }

  /** The decay term over one fixed step of `msPerUpdate` milliseconds. */
  function DecayStep(speedDecay: real, msPerUpdate: real): real {
    speedDecay * msPerUpdate * 1.0 / 1000.0
  }

  /** The speed the attenuated acceleration adds over one fixed step; none without acceleration. */
  function AccelStep(oldSpeed: real, acceleration: real, msPerUpdate: real): (step: real)
    ensures acceleration == 0.0 ==> step == 0.0
  {
    TrueAcceleration(oldSpeed, acceleration) * msPerUpdate * 1.0 / 1000.0 * GetAccelModifier()
  }

  /** Clamps a speed to [top reverse speed, top speed], both times the terrain modifier. */
  function ClampedSpeed(v: real): (r: real)
    ensures TOP_SPEED_REVERSE <= r <= TOP_SPEED
    ensures TOP_SPEED_REVERSE <= v <= TOP_SPEED ==> r == v
  {
    if v > TOP_SPEED * GetSpeedModifier() then TOP_SPEED * GetSpeedModifier()
    else if v < TOP_SPEED_REVERSE * GetSpeedModifier() then TOP_SPEED_REVERSE * GetSpeedModifier()
    else v
  }

  /**
   * The speed after one UpdateSpeed, from the speed before it. `speedDecay` is the decay
   * term, which the source derives from the old speed with fractional powers; here it is
   * any real. `msPerUpdate` is the fixed step in milliseconds.
   */
  function UpdatedSpeed(oldSpeed: real, acceleration: real, speedDecay: real, msPerUpdate: real): (r: real)
    ensures TOP_SPEED_REVERSE <= r <= TOP_SPEED
    ensures acceleration == 0.0 && oldSpeed >= 0.0 ==> r >= 0.0
    ensures acceleration == 0.0 && oldSpeed <= 0.0 ==> r <= 0.0
  {
    var snapped := Snapped(oldSpeed, Decayed(oldSpeed, DecayStep(speedDecay, msPerUpdate)), acceleration);
    var accelStep := AccelStep(oldSpeed, acceleration, msPerUpdate);
    ClampedSpeed(snapped + accelStep)
  }

  /**
   * With no commanded acceleration and a decay term that pulls toward rest (the source's
   * term is never positive), one update never makes the tank faster.
   */
  lemma DecayNeverSpeedsUp(oldSpeed: real, speedDecay: real, msPerUpdate: real)
    requires TOP_SPEED_REVERSE <= oldSpeed <= TOP_SPEED
    requires speedDecay <= 0.0 && msPerUpdate >= 0.0
    ensures var r := UpdatedSpeed(oldSpeed, 0.0, speedDecay, msPerUpdate);
      (oldSpeed >= 0.0 ==> 0.0 <= r <= oldSpeed) && (oldSpeed <= 0.0 ==> oldSpeed <= r <= 0.0)
  {
    assert speedDecay * msPerUpdate <= 0.0 by {
      NonPositiveProduct(speedDecay, msPerUpdate);
    }
    assert TrueAcceleration(oldSpeed, 0.0) == 0.0;
  }

  lemma NonPositiveProduct(a: real, b: real)
    requires a <= 0.0 && b >= 0.0
    ensures a * b <= 0.0
  {
  }

  /** `(reverseRate + forwardRate) * MAX_ACCELERATION`, as Accelerate computes it. */
  function AccelerationFor(forwardRate: real, reverseRate: real): real {
    (reverseRate + forwardRate) * MAX_ACCELERATION
  }

  /** The turn rate in radians per second, as Turn computes it. */
  function TurningAngleFor(turnLeftRate: real, turnRightRate: real): real {
    (turnLeftRate + turnRightRate) * MAX_DEGREE_PER_SECONDS_TURN * PI / 180.0
  }

  datatype DamageOutcome = DamageOutcome(hp: int, despawn: bool)

  /** The hit points after TakeDamage, and whether it posts a despawn. */
  function AfterDamage(hp: int, maxHP: int, damage: int, faction: Faction): (r: DamageOutcome)
    ensures r.despawn <==> (faction.AI? && hp - damage <= 0)
    ensures faction.AI? ==> r.hp == hp - damage
    ensures faction.PLAYER? && hp - damage > 0 ==> r.hp == hp - damage
    ensures faction.PLAYER? && hp - damage <= 0 ==> r.hp == maxHP
    ensures faction.PLAYER? && maxHP > 0 ==> r.hp > 0
  {
    var remaining := hp - damage;
    if remaining > 0 then DamageOutcome(remaining, false)
    else if faction.PLAYER? then DamageOutcome(maxHP, false)
    else DamageOutcome(remaining, true)
  }

  /**
   * The contact point of `mine` with the first box of `others`, in enumeration order,
   * that it intersects; None when it intersects none of them.
   */
  function FirstHit(mine: HitBox, others: HitBoxEntries, intersect: Intersection): (r: Option<Coordinate>)
    ensures r.None? <==> forall j :: 0 <= j < |others| ==> intersect(mine, others[j].1).None?
    ensures r.Some? ==> exists j :: (0 <= j < |others| && intersect(mine, others[j].1) == r
      && forall k :: 0 <= k < j ==> intersect(mine, others[k].1).None?)
  {
    if others == [] then None
    else
      match intersect(mine, others[0].1)
      case Some(p) => Some(p)
      case None =>
        var rest := FirstHit(mine, others[1..], intersect);
        assert forall j :: 1 <= j < |others| ==> others[j] == others[1..][j - 1];
        if rest.Some? then
          var j :| 0 <= j < |others| - 1 && intersect(mine, others[1..][j].1) == rest
            && forall k :: 0 <= k < j ==> intersect(mine, others[1..][k].1).None?;
          assert intersect(mine, others[j + 1].1) == rest;
          rest
        else rest
  }

  /**
   * The points HandleCollision receives while CheckForCollision scans `mine` against
   * `others`: for each own box in order, its first contact, if any. The scan stops at the
   * first contact only for the inner loop, so there is at most one call per own box.
   */
  function CollisionPoints(mine: HitBoxEntries, others: HitBoxEntries, intersect: Intersection): (points: seq<Coordinate>)
    ensures |points| <= |mine|
  {
    if mine == [] then []
    else
      CollisionPoints(mine[..|mine| - 1], others, intersect)
      + match FirstHit(mine[|mine| - 1].1, others, intersect)
        case Some(p) => [p]
        case None => []
  }

  /** Scanning one more own box adds its first contact, if any. */
  lemma CollisionPointsStep(mine: HitBoxEntries, i: nat, others: HitBoxEntries, intersect: Intersection)
    requires i < |mine|
    ensures CollisionPoints(mine[..i + 1], others, intersect)
      == CollisionPoints(mine[..i], others, intersect)
      + match FirstHit(mine[i].1, others, intersect)
        case Some(p) => [p]
        case None => []
  {
    assert mine[..i + 1][..i] == mine[..i];
  }

  /** No HandleCollision call happens exactly when no pair of boxes intersects. */
  lemma {:induction false} NoContactNoCollision(mine: HitBoxEntries, others: HitBoxEntries, intersect: Intersection)
    ensures CollisionPoints(mine, others, intersect) == [] <==>
      forall i, j :: 0 <= i < |mine| && 0 <= j < |others| ==> intersect(mine[i].1, others[j].1).None?
  {
    if mine != [] {
      var init := mine[..|mine| - 1];
      NoContactNoCollision(init, others, intersect);
      assert forall i :: 0 <= i < |init| ==> init[i] == mine[i];
    }
  }

  /** Every point handed to HandleCollision is a contact point of some pair of boxes. */
  lemma {:induction false} CollisionPointsAreContacts(mine: HitBoxEntries, others: HitBoxEntries, intersect: Intersection, n: nat)
    requires n < |CollisionPoints(mine, others, intersect)|
    ensures exists i, j :: (0 <= i < |mine| && 0 <= j < |others|
      && intersect(mine[i].1, others[j].1) == Some(CollisionPoints(mine, others, intersect)[n]))
  {
    var init := mine[..|mine| - 1];
    var front := CollisionPoints(init, others, intersect);
    if n < |front| {
      CollisionPointsAreContacts(init, others, intersect, n);
      var i, j :| 0 <= i < |init| && 0 <= j < |others| && intersect(init[i].1, others[j].1) == Some(front[n]);
      assert init[i] == mine[i];
    } else {
      var hit := FirstHit(mine[|mine| - 1].1, others, intersect);
      assert hit.Some?;
      var j :| 0 <= j < |others| && intersect(mine[|mine| - 1].1, others[j].1) == hit
        && forall k :: 0 <= k < j ==> intersect(mine[|mine| - 1].1, others[k].1).None?;
      assert CollisionPoints(mine, others, intersect)[n] == hit.value;
    }
  }

  /**
   * The three timers as InitializeTimers leaves them: the salvo timer counts down over the
   * salvo's remaining shots and starts paused, the cooldown timer starts paused at zero with
   * an execute time it never reaches, and the HP-bar timer runs from zero over two seconds
   * without having been paused.
   */
  predicate TimersAsInitialized(salvo: Timer, cooldown: Timer, hp: Timer) {
    && salvo.timerType == DESCENDING && salvo.paused
    && salvo.defaultTime == CANNON_BULLET_COOLDOWN * (CANNON_SALVO_PROJECTILE_NUMBER - 1) as real
    && salvo.executeTime == 0.0
    && cooldown.timerType == PAUSE_AT_ZERO && cooldown.paused
    && cooldown.time == 0.0 && cooldown.defaultTime == CANNON_COOLDOWN as real
    && cooldown.executeTime == (CANNON_COOLDOWN * 2) as real
    && hp.timerType == PAUSE_AT_ZERO && !hp.paused
    && hp.time == 0.0 && hp.defaultTime == 2000.0 && hp.executeTime == 0.0
  }

  /**
   * InitializeTimers, building the salvo, cooldown and HP-bar timers in its out-parameters
   * (the constructor stores them in its fields). The last Pause goes to the cooldown timer a
   * second time, which leaves the HP-bar timer running.
   */
  method InitializeTimers() returns (salvo: Timer, cooldown: Timer, hp: Timer)
    ensures TimersAsInitialized(salvo, cooldown, hp)
  {
    salvo := NewTimer(DESCENDING).(
      defaultTime := CANNON_BULLET_COOLDOWN * (CANNON_SALVO_PROJECTILE_NUMBER - 1) as real,
      executeTime := 0.0);
    salvo := salvo.Pause();

    cooldown := NewTimer(PAUSE_AT_ZERO).(
      time := 0.0,
      defaultTime := CANNON_COOLDOWN as real,
      executeTime := (CANNON_COOLDOWN * 2) as real);
    cooldown := cooldown.Pause();

    hp := NewTimer(PAUSE_AT_ZERO).(time := 0.0, defaultTime := 2000.0, executeTime := 0.0);
    cooldown := cooldown.Pause();
  }

  class TankObject {
    const color: TankColor
    const faction: Faction
    const physics: TankPhysicsComponent  // tankPhysics
    var position: Coordinate
    var body: SpriteRect                 // model.AllSprites["TankBody"].Pos
    var maxHP: int
    var currentHP: int
    var showHP: bool                     // model.ShowHP
    var speed: real
    var acceleration: real
    var turningAngle: real
    var directionBody: real
    var forwardRate: real
    var reverseRate: real
    var turnLeftRate: real
    var turnRightRate: real
    var salvoTimer: Timer                // BulletSalvoTimer
    var cooldownTimer: Timer             // CannonCooldownTimer
    var hpTimer: Timer

    ghost predicate Valid()
      reads this, physics
    {
      && physics.Valid()
      && maxHP == MAX_HP
      && (faction == Faction.PLAYER <==> color == TankColor.PLAYER)
      && (faction == Faction.PLAYER ==> currentHP > 0)
      && TOP_SPEED_REVERSE <= speed <= TOP_SPEED
      && acceleration == AccelerationFor(forwardRate, reverseRate)
      && turningAngle == TurningAngleFor(turnLeftRate, turnRightRate)
      && cooldownTimer.defaultTime == CANNON_COOLDOWN as real
    }

    /**
     * `new TankObject(spawnPosition, type)`. `body` is the body sprite's rectangle and
     * `update` the rectangle-hitbox helper, both outside this model.
     */
    constructor (spawnPosition: Coordinate, tankColor: TankColor, body: SpriteRect, update: RectangleUpdate)
      ensures Valid() && fresh(physics)
      ensures color == tankColor && position == spawnPosition && this.body == body
      ensures faction == Faction.PLAYER <==> tankColor == TankColor.PLAYER
      ensures currentHP == maxHP == MAX_HP
      ensures speed == 0.0 && acceleration == 0.0 && turningAngle == 0.0
      ensures TimersInitialized()
      ensures directionBody == SPAWN_DIRECTION
      ensures physics.hitBoxes == [(TANK_KEY, update(NewRectangle(), spawnPosition, SPAWN_DIRECTION, body.w, body.h))]
    {
      color := tankColor;
      this.body := body;
      position := spawnPosition;
      maxHP := MAX_HP;
      currentHP := MAX_HP;
      showHP := false;
      speed := 0.0;
      acceleration := 0.0;
      turningAngle := 0.0;
      directionBody := SPAWN_DIRECTION;
      forwardRate, reverseRate, turnLeftRate, turnRightRate := 0.0, 0.0, 0.0, 0.0;
      var salvo, cooldown, hp := InitializeTimers();
      salvoTimer, cooldownTimer, hpTimer := salvo, cooldown, hp;
      physics := new TankPhysicsComponent(spawnPosition, SPAWN_DIRECTION, body, update);
      faction := if tankColor == TankColor.PLAYER then Faction.PLAYER else Faction.AI;
      new;
      assert acceleration == AccelerationFor(forwardRate, reverseRate);
      assert turningAngle == TurningAngleFor(turnLeftRate, turnRightRate);
    }

    ghost predicate TimersInitialized()
      reads this
    {
      TimersAsInitialized(salvoTimer, cooldownTimer, hpTimer)
    }

    function GetHitBoxes(): HitBoxEntries
      reads this, physics
    {
      physics.hitBoxes
    }

    /** Posts a despawn of this tank when it is farther than 10000 from the camera. */
    method CheckLongivity(distanceToCamera: real, bus: Bus)
      modifies bus.subscribers
      ensures bus.PostedExactly(if distanceToCamera > DESPAWN_DISTANCE then [DespawnEvent(this)] else [])
    {
      if distanceToCamera > DESPAWN_DISTANCE {
        bus.PostEvent(DespawnEvent(this));
      }
    }

    /**
     * Applies the decay term, the zero-crossing snap (only without commanded acceleration),
     * the attenuated acceleration and the clamp to the top speeds.
     */
    method UpdateSpeed(speedDecay: real, msPerUpdate: real)
      requires Valid()
      modifies this`speed
      ensures Valid()
      ensures speed == UpdatedSpeed(old(speed), acceleration, speedDecay, msPerUpdate)
    {
      var oldSpeed := speed;
      var newSpeed := speed;
      var decayStep := DecayStep(speedDecay, msPerUpdate);
      if newSpeed < 0.0 {
        newSpeed := newSpeed - decayStep;
      } else if newSpeed > 0.0 {
        newSpeed := newSpeed + decayStep;
      }
      assert newSpeed == Decayed(oldSpeed, decayStep);
      if acceleration == 0.0 {
        if (oldSpeed < 0.0 && newSpeed > 0.0) || (oldSpeed > 0.0 && newSpeed < 0.0) {
          newSpeed := 0.0;
        }
      }
      var snapped := newSpeed;
      assert snapped == Snapped(oldSpeed, Decayed(oldSpeed, decayStep), acceleration);
      var accelStep := AccelStep(oldSpeed, acceleration, msPerUpdate);
      newSpeed := newSpeed + accelStep;
      if newSpeed > TOP_SPEED * GetSpeedModifier() {
        newSpeed := TOP_SPEED * GetSpeedModifier();
      } else if newSpeed < TOP_SPEED_REVERSE * GetSpeedModifier() {
        newSpeed := TOP_SPEED_REVERSE * GetSpeedModifier();
      }
      assert newSpeed == ClampedSpeed(snapped + accelStep);
      assert newSpeed == UpdatedSpeed(oldSpeed, acceleration, speedDecay, msPerUpdate);
      speed := newSpeed;
      assert physics.hitBoxes == old(physics.hitBoxes);
    }

    method Accelerate()
      modifies this`acceleration
      ensures acceleration == AccelerationFor(forwardRate, reverseRate)
    {
      acceleration := (reverseRate + forwardRate) * MAX_ACCELERATION;
    }

    method Turn()
      modifies this`turningAngle
      ensures turningAngle == TurningAngleFor(turnLeftRate, turnRightRate)
    {
      turningAngle := (turnLeftRate + turnRightRate) * MAX_DEGREE_PER_SECONDS_TURN * PI / 180.0;
    }

    /** Full forward throttle gives +25 m/s^2; cancelled by a reverse of the same rate. */
    method Forward(rate: real)
      requires Valid()
      modifies this`forwardRate, this`acceleration
      ensures Valid()
      ensures forwardRate == rate && reverseRate == old(reverseRate)
      ensures acceleration == (rate + reverseRate) * MAX_ACCELERATION
      ensures reverseRate == -rate ==> acceleration == 0.0
    {
      forwardRate := rate;
      Accelerate();
    }

    /** Reverse stores the negated rate, so a matching Forward cancels it. */
    method Reverse(rate: real)
      requires Valid()
      modifies this`reverseRate, this`acceleration
      ensures Valid()
      ensures reverseRate == -rate && forwardRate == old(forwardRate)
      ensures acceleration == (forwardRate - rate) * MAX_ACCELERATION
      ensures forwardRate == rate ==> acceleration == 0.0
    {
      reverseRate := -rate;
      Accelerate();
    }

    /** TurnLeft stores the negated rate, so a matching TurnRight cancels it. */
    method TurnLeft(rate: real)
      requires Valid()
      modifies this`turnLeftRate, this`turningAngle
      ensures Valid()
      ensures turnLeftRate == -rate && turnRightRate == old(turnRightRate)
      ensures turnRightRate == rate ==> turningAngle == 0.0
    {
      turnLeftRate := -rate;
      Turn();
    }

    method TurnRight(rate: real)
      requires Valid()
      modifies this`turnRightRate, this`turningAngle
      ensures Valid()
      ensures turnRightRate == rate && turnLeftRate == old(turnLeftRate)
      ensures turnLeftRate == -rate ==> turningAngle == 0.0
    {
      turnRightRate := rate;
      Turn();
    }

    /**
     * Fires only when the cooldown has run out: then both timers restart from their
     * default times and run, and the salvo's execute time is its default time.
     */
    method Shoot()
      requires Valid()
      modifies this`cooldownTimer, this`salvoTimer
      ensures Valid()
      ensures old(cooldownTimer.time) > 0.0 ==>
        cooldownTimer == old(cooldownTimer) && salvoTimer == old(salvoTimer)
      ensures old(cooldownTimer.time) <= 0.0 ==>
        && cooldownTimer == old(cooldownTimer).(time := CANNON_COOLDOWN as real, paused := false)
        && salvoTimer == old(salvoTimer).(time := old(salvoTimer.defaultTime),
                                          executeTime := old(salvoTimer.defaultTime), paused := false)
    {
      if cooldownTimer.time <= 0.0 {
        cooldownTimer := cooldownTimer.Reset();
        cooldownTimer := cooldownTimer.UnPause();
        salvoTimer := salvoTimer.Reset();
        salvoTimer := salvoTimer.UnPause();
        salvoTimer := salvoTimer.(executeTime := salvoTimer.defaultTime);
      }
    }

    /** ICollide's hook; a tank does not react to collisions yet. */
    method HandleCollision(other: TankObject, collisionPoint: Coordinate)
    {
    }

    /**
     * The inner loop of CheckForCollision for one own box: scans `theirs` in order and, at
     * the first box that intersects it, calls HandleCollision with the point and stops.
     */
    method FirstContact(other: TankObject, mine: HitBox, theirs: HitBoxEntries, intersect: Intersection)
      returns (hit: Option<Coordinate>)
      ensures hit == FirstHit(mine, theirs, intersect)
    {
      var j := 0;
      while j < |theirs|
        invariant 0 <= j <= |theirs|
        invariant FirstHit(mine, theirs, intersect) == FirstHit(mine, theirs[j..], intersect)
      {
        hit := intersect(mine, theirs[j].1);
        if hit.Some? {
          HandleCollision(other, hit.value);
          return;
        }
        assert theirs[j..][1..] == theirs[j + 1..];
        j := j + 1;
      }
      hit := None;
    }

    /**
     * Scans every own hitbox against every hitbox of `other`; on the first contact of an own
     * box, calls HandleCollision with its point and leaves the inner loop only. Returns the
     * points of the HandleCollision calls, in order.
     */
    method CheckForCollision(other: TankObject, intersect: Intersection) returns (points: seq<Coordinate>)
      ensures points == CollisionPoints(GetHitBoxes(), other.GetHitBoxes(), intersect)
      ensures |points| <= |GetHitBoxes()|
    {
      var mine := GetHitBoxes();
      var theirs := other.GetHitBoxes();
      points := [];
      var i := 0;
      while i < |mine|
        invariant 0 <= i <= |mine|
        invariant points == CollisionPoints(mine[..i], theirs, intersect)
      {
        CollisionPointsStep(mine, i, theirs, intersect);
        var hit := FirstContact(other, mine[i].1, theirs, intersect);
        if hit.Some? {
          points := points + [hit.value];
        }
        i := i + 1;
      }
      assert mine[..|mine|] == mine;
    }

    /**
     * Loses exactly `damage` hit points and shows the HP bar again. At zero or below, a
     * player tank is restored to full HP, while an AI tank posts its own despawn.
     */
    method TakeDamage(damage: int, bus: Bus)
      requires Valid()
      modifies this`currentHP, this`showHP, this`hpTimer, bus.subscribers
      ensures Valid()
      ensures var r := AfterDamage(old(currentHP), maxHP, damage, faction);
        && currentHP == r.hp
        && bus.PostedExactly(if r.despawn then [DespawnEvent(this)] else [])
      ensures showHP && hpTimer == old(hpTimer).(time := old(hpTimer.defaultTime), paused := false)
    {
      currentHP := currentHP - damage;
      showHP := true;
      hpTimer := hpTimer.Reset();
      hpTimer := hpTimer.UnPause();
      if currentHP <= 0 {
        if faction == Faction.PLAYER {
          currentHP := maxHP;
        } else {
          bus.PostEvent(DespawnEvent(this));
        }
      }
    }
  }
}
