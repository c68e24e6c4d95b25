/**
 * The tower entity: its stats table, the attack-cooldown gate and the
 * upgrade transform.
 */
module Towers {
  import opened GameTypes

  datatype TowerData = TowerData(
    towerType: TowerType,
    level: int,
    damage: real,
    range: real,
    attackSpeed: real,
    cost: int,
    upgradeCost: int,
    specialAbility: string)

  /** The stats a tower of each type is built with. */
  function GetTowerData(t: TowerType): (d: TowerData)
    ensures d.towerType == t && d.level == 1
    ensures d.damage > 0.0 && d.range > 0.0 && d.attackSpeed > 0.0
    ensures d.upgradeCost > d.cost > 0
  {
    match t
    case Nginx => TowerData(Nginx, 1, 10.0, 150.0, 1.0, 100, 150, "rate_limit")
    case LoadBalancer => TowerData(LoadBalancer, 1, 5.0, 120.0, 2.0, 150, 200, "area_buff")
    case Redis => TowerData(Redis, 1, 8.0, 100.0, 1.5, 120, 180, "slow")
    case Kafka => TowerData(Kafka, 1, 15.0, 180.0, 0.5, 200, 300, "queue_damage")
    case Database => TowerData(Database, 1, 20.0, 100.0, 0.8, 180, 270, "high_damage")
    case Monitoring => TowerData(Monitoring, 1, 3.0, 200.0, 3.0, 80, 120, "reveal")
  }

  /** Milliseconds between two attacks at `attackSpeed` attacks per second. */
  function AttackCooldown(attackSpeed: real): (c: real)
    requires attackSpeed > 0.0
    ensures c > 0.0
    ensures c * attackSpeed == 1000.0
  {
    1000.0 / attackSpeed
  }

  /** The attack gate: has a full cooldown passed since the last attack? */
  predicate MayAttack(time: real, lastAttackTime: real, attackSpeed: real)
    requires attackSpeed > 0.0
  {
    time - lastAttackTime >= AttackCooldown(attackSpeed)
  }

  /**
   * The upgrade transform: one level more, damage x1.5, range x1.1,
   * attack speed x1.2; cost, upgrade cost, type and ability are kept.
   */
  function Upgraded(d: TowerData): (u: TowerData)
    ensures u.level == d.level + 1
    ensures u.damage == d.damage * 1.5 && u.range == d.range * 1.1 && u.attackSpeed == d.attackSpeed * 1.2
    ensures u.cost == d.cost && u.upgradeCost == d.upgradeCost
    ensures u.towerType == d.towerType && u.specialAbility == d.specialAbility
    ensures d.damage > 0.0 ==> u.damage > d.damage
    ensures d.range > 0.0 ==> u.range > d.range
    ensures d.attackSpeed > 0.0 ==> u.attackSpeed > d.attackSpeed
  {
    d.(level := d.level + 1, damage := d.damage * 1.5, range := d.range * 1.1,
       attackSpeed := d.attackSpeed * 1.2)
  }

  /**
   * After an attack stamped at `t`, no attack passes the gate before
   * `t + 1000 / attackSpeed`, and from then on every time does.
   */
  lemma NoAttackWithinCooldown(t: real, time: real, attackSpeed: real)
    requires attackSpeed > 0.0
    ensures MayAttack(time, t, attackSpeed) <==> time >= t + AttackCooldown(attackSpeed)
  {
  }

  /** A faster tower (after an upgrade, say) waits less between attacks. */
  lemma FasterMeansShorterCooldown(s1: real, s2: real)
    requires 0.0 < s1 < s2
    ensures AttackCooldown(s2) < AttackCooldown(s1)
  {
    var c1, c2 := AttackCooldown(s1), AttackCooldown(s2);
    assert c1 * s1 == c2 * s2;
    assert c2 * s1 < c2 * s2;
  }

  class Tower {
    var towerData: TowerData
    var lastAttackTime: real
    const x: real
    const y: real

    ghost predicate Valid()
      reads this
    {
      towerData.attackSpeed > 0.0 && towerData.level >= 1
    }

    constructor (x: real, y: real, t: TowerType)
      ensures Valid()
      ensures towerData == GetTowerData(t) && lastAttackTime == 0.0
      ensures this.x == x && this.y == y
    {
      this.x, this.y := x, y;
      towerData := GetTowerData(t);
      lastAttackTime := 0.0;
    }

    /**
     * One frame: attacks (and stamps the time) exactly when a full
     * cooldown has passed since the last attack.
     */
    method Update(time: real, delta: real) returns (attacked: bool)
      requires Valid()
      modifies this`lastAttackTime
      ensures Valid()
      ensures attacked <==> MayAttack(time, old(lastAttackTime), towerData.attackSpeed)
      ensures lastAttackTime == if attacked then time else old(lastAttackTime)
    {
      var attackCooldown := 1000.0 / towerData.attackSpeed;
      attacked := false;
      if time - lastAttackTime >= attackCooldown {
        TryAttack(time);
        attacked := true;
      }
    }

    /** Finding and shooting a target is not implemented: only the time is stamped. */
    method TryAttack(time: real)
      modifies this`lastAttackTime
      ensures lastAttackTime == time
    {
      lastAttackTime := time;
    }

    method Upgrade()
      requires Valid()
      modifies this`towerData
      ensures Valid()
      ensures towerData == Upgraded(old(towerData))
    {
      towerData := towerData.(level := towerData.level + 1);
      towerData := towerData.(damage := towerData.damage * 1.5);
      towerData := towerData.(range := towerData.range * 1.1);
      towerData := towerData.(attackSpeed := towerData.attackSpeed * 1.2);
    }

    /** A copy of the stats. */
    function GetData(): (d: TowerData)
      reads this
      ensures d == towerData
    {
      towerData
    }
  }
}
