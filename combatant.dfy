/**
 * The `Soldier` class hierarchy (base `Soldier`, derived `Marine` and `Bug`) of
 * the three versions that share the "+50" rules.  The two derived classes become
 * one class with a constant `kind`; each virtual method dispatches on it.
 * Every method is proved against the value-level rules of module `Rules`.
 */
module Combatant {
  import opened Rules

  class Soldier {
    /** Display name ("Marine3", "Bug1"); only the threadpool version has one. */
    const name: string
    const kind: Kind
    var health: int
    var alive: bool
    /** `Bug::carapace`; false and never read for a Marine. */
    var carapace: bool
    /** `hits` (`marine_hit` / `bug_hit` in the turn and thread versions). */
    var hits: nat
    /** `enemies_killed`: names of the enemies this soldier was credited with. */
    var enemiesKilled: seq<string>

    /** The soldier's combat state as a value. */
    function State(): Vitals
      reads this
    {
      Vitals(health, alive, carapace)
    }

    constructor (name: string, kind: Kind)
      ensures this.name == name && this.kind == kind
      ensures State() == Recruit(kind)
      ensures hits == 0 && enemiesKilled == []
    {
      this.name := name;
      this.kind := kind;
      health := StartHealth;
      alive := true;
      carapace := kind == Bug;
      hits := 0;
      enemiesKilled := [];
    }

    /** `takeDamage(damage)`, dispatched to the base or the Bug override. */
    method TakeDamage(damage: int)
      modifies this
      ensures State() == Rules.TakeDamage(kind, old(State()), damage)
      ensures hits == old(hits) && enemiesKilled == old(enemiesKilled)
    {
      health := health - damage;
      if kind == Bug {
        if health <= 0 && carapace {
          health := health + CarapaceHeal;
          carapace := false;
        } else if health <= 0 {
          alive := false;
        }
      } else {
        if health <= 0 {
          alive := false;
        }
      }
    }

    /** `slay(target)`: `Marine::slay` calls `takeDamage(100)`, `Bug::slay` subtracts 100 from health directly. */
    method Slay(target: Soldier)
      requires target != this
      modifies target
      ensures kind == Marine ==> target.State() == Rules.TakeDamage(target.kind, old(target.State()), 2 * Damage)
      ensures kind == Bug ==> target.State() == old(target.State()).(health := old(target.health) - 2 * Damage)
      ensures target.hits == old(target.hits) && target.enemiesKilled == old(target.enemiesKilled)
    {
      if kind == Marine {
        target.TakeDamage(2 * Damage);
      } else {
        target.health := target.health - 2 * Damage;
      }
    }

    /** `attack(target)` with the roll `roll` in place of `rand() % 10 + 1`. */
    method Attack(target: Soldier, roll: int)
      requires IsRoll(roll) && target != this
      modifies this, target
      ensures hits == old(hits) + (if Hits(kind, roll) then 1 else 0)
      ensures target.State() == Strike(kind, target.kind, old(target.State()), roll)
      ensures State() == old(State()) && enemiesKilled == old(enemiesKilled)
      ensures target.hits == old(target.hits) && target.enemiesKilled == old(target.enemiesKilled)
    {
      if roll > Accuracy(kind) {
        hits := hits + 1;
        if roll == BaseToHit {
          Slay(target);
        } else {
          target.TakeDamage(Damage);
        }
      }
    }

    /** `alive.exchange(false)`: store false and return the value it replaced. */
    method ExchangeAliveFalse() returns (previous: bool)
      modifies this
      ensures previous == old(alive) && !alive
      ensures health == old(health) && carapace == old(carapace)
      ensures hits == old(hits) && enemiesKilled == old(enemiesKilled)
    {
      previous := alive;
      alive := false;
    }
  }

  /** Sum of the hit counters of a roster, living or dead. */
  function SumHits(force: seq<Soldier>): int
    reads force
  {
    if force == [] then 0 else SumHits(force[..|force| - 1]) + force[|force| - 1].hits
  }

  /** The combat states of a roster, in roster order. */
  function States(force: seq<Soldier>): (vs: seq<Vitals>)
    reads force
    ensures |vs| == |force|
  {
    if force == [] then [] else States(force[..|force| - 1]) + [force[|force| - 1].State()]
  }

  /** `States` lists each soldier's combat state at its index. */
  lemma {:induction false} StatesAt(force: seq<Soldier>)
    ensures forall i :: 0 <= i < |force| ==> States(force)[i] == force[i].State()
  {
    if force != [] {
      StatesAt(force[..|force| - 1]);
    }
  }

  /**
   * The hit total of soldier_w_threads.cpp's `gameLoop`: the sum of every
   * soldier's counter, living or dead.
   */
  method HitTotal(force: seq<Soldier>) returns (total: int)
    ensures total == SumHits(force)
  {
    total := 0;
    var i := 0;
    while i < |force|
      invariant 0 <= i <= |force|
      invariant total == SumHits(force[..i])
    {
      assert force[..i + 1][..i] == force[..i];
      total := total + force[i].hits;
      i := i + 1;
    }
    assert force[..i] == force;
  }
}
