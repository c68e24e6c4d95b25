/**
 * Player abilities: each has a cooldown and a last-used stamp, and may be
 * used only once the cooldown has elapsed since that stamp.
 */
module Abilities {
  import opened GameTypes

  datatype AbilityType = ScaleUp | EmergencyCache | SilenceAlerts

  /** An ability record; `cost` and `duration` are data only, never enforced here. */
  datatype Ability = Ability(
    abilityType: AbilityType,
    name: string,
    description: string,
    cooldown: real,
    cost: int,
    duration: Option<real>,
    lastUsed: real)

  /** The stamp every ability starts with, far enough back to be usable at once. */
  const NeverUsed: real := -9999999.0

  /** The three abilities as the system creates them (cooldowns and durations in ms). */
  function InitialAbilities(): (m: map<AbilityType, Ability>)
    ensures m.Keys == {ScaleUp, EmergencyCache, SilenceAlerts}
    ensures forall t :: t in m ==> m[t].abilityType == t && m[t].lastUsed == NeverUsed
    ensures forall t :: t in m ==> 0.0 < m[t].cooldown <= 30000.0
  {
    map[
      ScaleUp := Ability(ScaleUp, "Scale Up",
        "Double all tower attack speed for 10 seconds", 30000.0, 150, Some(10000.0), NeverUsed),
      EmergencyCache := Ability(EmergencyCache, "Emergency Cache",
        "Slow all enemies by 50% for 8 seconds", 25000.0, 100, Some(8000.0), NeverUsed),
      SilenceAlerts := Ability(SilenceAlerts, "Silence Alerts",
        "Instantly kill the weakest enemy", 20000.0, 120, None, NeverUsed)
    ]
  }

  /** The order in which the system creates the abilities, and so lists them. */
  const CreationOrder: seq<AbilityType> := [ScaleUp, EmergencyCache, SilenceAlerts]

  /** The cooldown test on one record. */
  predicate Ready(a: Ability, currentTime: real) {
    currentTime - a.lastUsed >= a.cooldown
  }

  /** Time left before `a` is ready again, never negative. */
  function Remaining(a: Ability, currentTime: real): (r: real)
    ensures r >= 0.0
    ensures r == 0.0 <==> Ready(a, currentTime)
    ensures r > 0.0 ==> r == a.cooldown - (currentTime - a.lastUsed)
  {
    var left := a.cooldown - (currentTime - a.lastUsed);
    if left > 0.0 then left else 0.0
  }

  class AbilitySystem {
    var abilities: map<AbilityType, Ability>

    /** The three abilities are always present, each filed under its own type. */
    ghost predicate Valid()
      reads this
    {
      && abilities.Keys == {ScaleUp, EmergencyCache, SilenceAlerts}
      && forall t :: t in abilities ==> abilities[t].abilityType == t
    }

    constructor ()
      ensures Valid()
      ensures abilities == InitialAbilities()
    {
      abilities := InitialAbilities();
    }

    /** Usable iff the record exists and its cooldown has elapsed. */
    function CanUse(t: AbilityType, currentTime: real): (ok: bool)
      reads this
      ensures t !in abilities ==> !ok
      ensures t in abilities ==> (ok <==> currentTime - abilities[t].lastUsed >= abilities[t].cooldown)
    {
      t in abilities && Ready(abilities[t], currentTime)
    }

    /**
     * Stamps `lastUsed := currentTime` when the ability can be used, and
     * reports whether it was. Cost is neither checked nor deducted; every
     * other record stays as it was.
     */
    method Use(t: AbilityType, currentTime: real) returns (used: bool)
      requires Valid()
      modifies this
      ensures Valid()
      ensures used == old(CanUse(t, currentTime))
      ensures !used ==> abilities == old(abilities)
      ensures used ==> abilities == old(abilities)[t := old(abilities)[t].(lastUsed := currentTime)]
    {
      if t !in abilities {
        return false;
      }
      var ability := abilities[t];
      if !CanUse(t, currentTime) {
        return false;
      }
      abilities := abilities[t := ability.(lastUsed := currentTime)];
      return true;
    }

    /**
     * Every ability exactly once, in creation order. Updating a record keeps
     * its place, as re-setting a key of a JavaScript `Map` does.
     */
    function GetAllAbilities(): (r: seq<Ability>)
      requires Valid()
      reads this
      ensures |r| == |CreationOrder|
      ensures forall i :: 0 <= i < |r| ==> r[i].abilityType == CreationOrder[i]
      ensures forall i :: 0 <= i < |r| ==> r[i] == abilities[r[i].abilityType]
      ensures forall t :: t in abilities ==> abilities[t] in r
    {
      [abilities[ScaleUp], abilities[EmergencyCache], abilities[SilenceAlerts]]
    }

    function GetAbility(t: AbilityType): (a: Option<Ability>)
      reads this
      ensures a.Some? <==> t in abilities
      ensures a.Some? ==> a.value == abilities[t]
    {
      if t in abilities then Some(abilities[t]) else None
    }

    /** Milliseconds until the ability is ready; 0 for a missing record. */
    function GetCooldownRemaining(t: AbilityType, currentTime: real): (r: real)
      reads this
      ensures r >= 0.0
      ensures t in abilities ==> (r == 0.0 <==> CanUse(t, currentTime))
    {
      if t !in abilities then 0.0 else Remaining(abilities[t], currentTime)
    }
  }

  /** Right after construction, every ability is usable at any time from 0 on. */
  lemma AllUsableAtStart(t: AbilityType, currentTime: real)
    requires currentTime >= 0.0
    ensures Ready(InitialAbilities()[t], currentTime)
  {
  }

  /**
   * A use at `used` keeps the ability unusable at every time `now` before
   * `used + cooldown`, and usable again from then on.
   */
  lemma CooldownAfterUse(a: Ability, used: real, now: real)
    ensures Ready(a.(lastUsed := used), now) <==> now >= used + a.cooldown
  {
  }
}
