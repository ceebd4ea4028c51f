/**
 * Practice/Main.java: zombies whose health drops by exactly the damage of
 * each hit, with no floor, and whose die() runs after every hit that leaves
 * health at or below zero; and a player whose current attack strategy
 * decides the damage of a collision. What is printed is left out; each
 * zombie counts the die() calls it has received.
 */
module Zombies {
  import opened JavaLang

  datatype ZombieType = ZombieType1 | ZombieType2

  /** The health every zombie starts with before its subtype's constructor runs. */
  const BASE_HEALTH: int32 := 100

  /** The health each subtype's constructor sets, replacing the base value. */
  function InitialHealth(t: ZombieType): int32
  {
    match t
    case ZombieType1 => 200
    case ZombieType2 => 300
  }

  /** health -= d on a Java int: exactly health - d, wrapping only when that leaves the int range. */
  function Hit(health: int32, damage: int32): (r: int32)
    ensures INT_MIN <= health - damage <= INT_MAX ==> r == health - damage
  {
    Wrap32(health - damage)
  }

  class Zombie {
    const zombieType: ZombieType
    var health: int32
    /** How many times die() has run on this zombie. */
    var deaths: nat

    constructor (zombieType: ZombieType)
      ensures this.zombieType == zombieType && health == InitialHealth(zombieType) && deaths == 0
    {
      this.zombieType := zombieType;
      health := BASE_HEALTH;
      deaths := 0;
      new;
      health := InitialHealth(zombieType);
    }

    /** takeDamage: lower health by the damage, then die() when health is at or below zero. */
    method TakeDamage(damageAmount: int32)
      modifies this
      ensures health == Hit(old(health), damageAmount)
      ensures deaths == old(deaths) + (if health <= 0 then 1 else 0)
    {
      health := Hit(health, damageAmount);
      if health <= 0 {
        deaths := deaths + 1;
      }
    }
  }

  datatype AttackStrategy = NormalAttack | SpecialAttack

  /** The damage of one hit: the special attack deals five times the normal attack's single point. */
  function Damage(s: AttackStrategy): (r: int32)
    ensures 1 <= r <= 5
    ensures r == 5 <==> s == SpecialAttack
  {
    match s
    case NormalAttack => 1
    case SpecialAttack => 5
  }

  class Player {
    var attackStrategy: Option<AttackStrategy>

    constructor ()
      ensures attackStrategy == None
    {
      attackStrategy := None;
    }

    method SetAttackStrategy(s: AttackStrategy)
      modifies this
      ensures attackStrategy == Some(s)
    {
      attackStrategy := Some(s);
    }

    /**
     * onCollisionEnter: no zombie, nothing happens; before any strategy is
     * set, the null strategy is dereferenced; otherwise the zombie takes the
     * strategy's damage.
     */
    method OnCollisionEnter(zombie: Zombie?) returns (thrown: Option<Exception>)
      modifies zombie
      ensures zombie == null ==> thrown == None
      ensures zombie != null && attackStrategy.None? ==> thrown == Some(NullPointer) && unchanged(zombie)
      ensures zombie != null && attackStrategy.Some? ==> thrown == None
      ensures zombie != null && attackStrategy.Some? ==>
        zombie.health == Hit(old(zombie.health), Damage(attackStrategy.value))
      ensures zombie != null && attackStrategy.Some? ==>
        zombie.deaths == old(zombie.deaths) + (if zombie.health <= 0 then 1 else 0)
    {
      thrown := None;
      if zombie != null {
        if attackStrategy.None? {
          thrown := Some(NullPointer);
        } else {
          zombie.TakeDamage(Damage(attackStrategy.value));
        }
      }
    }
  }

  /**
   * The health after n hits of the same damage: n times the damage lower,
   * when the damage is not negative and that value is still an int.
   */
  function HealthAfter(health: int32, damage: int32, n: nat): (r: int32)
    ensures 0 <= damage && INT_MIN <= health - n * damage ==> r == health - n * damage
    decreases n
  {
    if n == 0 then health else HealthAfter(Hit(health, damage), damage, n - 1)
  }

  /** How many times die() runs during n hits of the same damage. */
  function DeathsDuring(health: int32, damage: int32, n: nat): nat
    decreases n
  {
    if n == 0 then 0
    else (if Hit(health, damage) <= 0 then 1 else 0) + DeathsDuring(Hit(health, damage), damage, n - 1)
  }

  /**
   * Health is not clamped: n normal hits lower it by exactly n, past zero,
   * and die() runs on the hit that reaches zero and again on every hit
   * after it.
   */
  lemma {:induction false} NormalHits(health: int32, n: nat)
    requires INT_MIN <= health - n
    ensures HealthAfter(health, 1, n) == health - n
    ensures DeathsDuring(health, 1, n) == if health <= 0 then n else if n < health then 0 else n - health + 1
    decreases n
  {
    if n > 0 {
      NormalHits(health - 1, n - 1);
    }
  }

  /** A Type1 zombie survives 199 normal hits and dies on the 200th; a 201st hit kills it again. */
  lemma Type1Deaths()
    ensures DeathsDuring(InitialHealth(ZombieType1), 1, 199) == 0
    ensures DeathsDuring(InitialHealth(ZombieType1), 1, 200) == 1
    ensures DeathsDuring(InitialHealth(ZombieType1), 1, 201) == 2
    ensures HealthAfter(InitialHealth(ZombieType1), 1, 201) == -1
  {
    NormalHits(200, 199);
    NormalHits(200, 200);
    NormalHits(200, 201);
  }

  /**
   * The program's run: one normal and one special hit on each zombie leave
   * 194 and 294 health and no deaths.
   */
  method MainDemo() returns (zombie1: Zombie, zombie2: Zombie)
    ensures zombie1.health == 194 && zombie2.health == 294
    ensures zombie1.deaths == 0 && zombie2.deaths == 0
  {
    zombie1 := new Zombie(ZombieType1);
    zombie2 := new Zombie(ZombieType2);
    var player := new Player();
    player.SetAttackStrategy(NormalAttack);
    var _ := player.OnCollisionEnter(zombie1);
    var _ := player.OnCollisionEnter(zombie2);
    player.SetAttackStrategy(SpecialAttack);
    var _ := player.OnCollisionEnter(zombie1);
    var _ := player.OnCollisionEnter(zombie2);
  }
}
