/**
 * A projectile homing on one enemy: each frame it either gives up (no
 * target, or a dead one), hits (when the remaining distance is within one
 * frame's travel), or moves closer.
 */
module Projectiles {
  import opened GameTypes
  import opened Enemies

  /** Pixels per second. */
  const ProjectileSpeed: real := 400.0

  /** Distance travelled in `delta` ms. */
  function Travel(speed: real, delta: real): real {
    speed * delta / 1000.0
  }

  /** The outcome of one projectile frame. */
  datatype Outcome = Discarded | Hit | Flying

  /**
   * The decision of one frame, from the target's state and the distance
   * to it: a missing or dead target discards the projectile, a distance
   * within this frame's travel is a hit, anything else keeps it flying.
   */
  function Decide(hasTarget: bool, targetHealth: real, distance: real, travel: real): (o: Outcome)
    ensures o == Discarded <==> !hasTarget || targetHealth <= 0.0
    ensures o == Hit <==> hasTarget && targetHealth > 0.0 && distance <= travel
    ensures o == Flying <==> hasTarget && targetHealth > 0.0 && distance > travel
  {
    if !hasTarget || targetHealth <= 0.0 then Discarded
    else if distance <= travel then Hit
    else Flying
  }

  class Projectile {
    const target: Enemy?
    const damage: real
    const speed: real
    var x: real
    var y: real
    var destroyed: bool

    constructor (x: real, y: real, target: Enemy?, damage: real)
      ensures this.target == target && this.damage == damage && speed == ProjectileSpeed
      ensures this.x == x && this.y == y && !destroyed
    {
      this.target := target;
      this.damage := damage;
      speed := ProjectileSpeed;
      this.x, this.y := x, y;
      destroyed := false;
    }

    /**
     * One frame of `delta` ms. The distance to the target and the unit
     * direction towards it (cosine and sine of the angle) are inputs.
     * Returns whether the projectile keeps flying; every false return
     * destroys it, and damage is applied only on a hit of a live target.
     */
    method Update(delta: real, distance: real, dirX: real, dirY: real) returns (flying: bool)
      requires target != null ==> target.Valid()
      modifies this`x, this`y, this`destroyed, {target}`enemyData, {target}`events, {target}`destroyed
      ensures target != null ==> target.Valid()
      ensures var o := Decide(target != null, if target == null then 0.0 else old(target.enemyData.health),
                              distance, Travel(speed, delta));
        && (flying <==> o == Flying)
        && destroyed == (old(destroyed) || !flying)
        && (o == Hit ==>
              && target.enemyData == old(target.enemyData).(health := DamagedHealth(old(target.enemyData.health), damage))
              && target.events == old(target.events) +
                   (if target.enemyData.health == 0.0 then [Killed(target.enemyData)] else [])
              && target.destroyed == (old(target.destroyed) || target.enemyData.health == 0.0))
        && (o != Hit && target != null ==> unchanged(target))
        && (o == Flying ==> x == old(x) + dirX * Travel(speed, delta) && y == old(y) + dirY * Travel(speed, delta))
        && (o != Flying ==> x == old(x) && y == old(y))
    {
      if target == null || target.GetData().health <= 0.0 {
        Destroy();
        return false;
      }
      var moveAmount := (speed * delta) / 1000.0;
      if distance <= moveAmount {
        HitTarget();
        return false;
      }
      x := x + dirX * moveAmount;
      y := y + dirY * moveAmount;
      return true;
    }

    /** Damages the target only while it is alive, then destroys the projectile. */
    method HitTarget()
      requires target != null ==> target.Valid()
      modifies this`destroyed, {target}`enemyData, {target}`events, {target}`destroyed
      ensures target != null ==> target.Valid()
      ensures destroyed
      ensures target != null && old(target.enemyData.health) > 0.0 ==>
        && target.enemyData == old(target.enemyData).(health := DamagedHealth(old(target.enemyData.health), damage))
        && target.events == old(target.events) +
             (if target.enemyData.health == 0.0 then [Killed(target.enemyData)] else [])
        && target.destroyed == (old(target.destroyed) || target.enemyData.health == 0.0)
      ensures target == null || old(target.enemyData.health) <= 0.0 ==> target == null || unchanged(target)
    {
      if target != null && target.GetData().health > 0.0 {
        var _ := target.TakeDamage(damage);
      }
      Destroy();
    }

    method Destroy()
      modifies this`destroyed
      ensures destroyed
    {
      destroyed := true;
    }

    function GetTarget(): Enemy?
      reads this
    {
      target
    }
  }
}
