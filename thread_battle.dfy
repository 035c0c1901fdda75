/**
 * soldier_w_threads.cpp: the `battle` lambda of `gameLoop` (a thread per
 * soldier calls it over and over), the winner announced when the loop ends and
 * the hit totals.  Each call of `battle` is one sequential step; how the
 * threads interleave is left out.
 */
module ThreadBattle {
  import opened Rules
  import opened Combatant

  /** What one `battle` call does to the defender, and whether it lowers the opposing count. */
  datatype Step = Step(defender: Vitals, decrement: bool)

  /**
   * `battle` on values: nothing happens unless both soldiers are alive;
   * otherwise the attack lands and the count drops when the defender is now dead.
   */
  function BattleStep(ak: Kind, dk: Kind, attacker: Vitals, defender: Vitals, roll: int): (s: Step)
    ensures s.decrement <==> attacker.alive && defender.alive && !s.defender.alive
    ensures !(attacker.alive && defender.alive) ==> s.defender == defender
    ensures s.defender.alive ==> defender.alive
  {
    if !attacker.alive || !defender.alive then Step(defender, false)
    else
      var w := Strike(ak, dk, defender, roll);
      Step(w, !w.alive)
  }

  /**
   * Whatever soldiers fight, a count that equals the number of living
   * defenders still does after a `battle` step against defender `j`.
   */
  lemma {:induction false} CountTracksLiving(roster: seq<Vitals>, j: nat, ak: Kind, dk: Kind, attacker: Vitals, roll: int, count: int)
    requires j < |roster| && count == CountAlive(roster)
    ensures var s := BattleStep(ak, dk, attacker, roster[j], roll);
      count - (if s.decrement then 1 else 0) == CountAlive(roster[j := s.defender])
  {
    var s := BattleStep(ak, dk, attacker, roster[j], roll);
    CountAliveUpdate(roster, j, s.defender);
  }

  /**
   * `Bug::slay` bypasses `takeDamage`: a Bug's critical hit takes a Marine at
   * 100 or less to 0 or below yet leaves it alive and counted, and it fights on.
   */
  lemma CriticalBiteLeavesMarineStanding(marine: Vitals, bug: Vitals)
    requires marine.alive && bug.alive && marine.health <= 100
    ensures var s := BattleStep(Bug, Marine, bug, marine, BaseToHit);
      s.defender.health <= 0 && s.defender.alive && !s.decrement
  {
  }

  /** The counters `gameLoop` shares with its `battle` lambda. */
  class Engine {
    var marineCount: int
    var bugCount: int
    var gameOver: bool

    /** Counts start at the roster sizes. */
    constructor (marines: nat, bugs: nat)
      ensures marineCount == marines && bugCount == bugs && !gameOver
    {
      marineCount := marines;
      bugCount := bugs;
      gameOver := false;
    }

    /** The `battle` lambda. */
    method Battle(attacker: Soldier, defender: Soldier, isMarineAttacking: bool, roll: int)
      requires attacker != defender && IsRoll(roll)
      modifies this, attacker, defender
      ensures attacker.State() == old(attacker.State()) && attacker.enemiesKilled == old(attacker.enemiesKilled)
      ensures defender.hits == old(defender.hits) && defender.enemiesKilled == old(defender.enemiesKilled)
      ensures attacker.hits == old(attacker.hits) + (if old(attacker.alive && defender.alive) && Hits(attacker.kind, roll) then 1 else 0)
      ensures var s := BattleStep(attacker.kind, defender.kind, old(attacker.State()), old(defender.State()), roll);
        && defender.State() == s.defender
        && bugCount == old(bugCount) - (if s.decrement && isMarineAttacking then 1 else 0)
        && marineCount == old(marineCount) - (if s.decrement && !isMarineAttacking then 1 else 0)
        && gameOver == (old(gameOver) || (s.decrement && (if isMarineAttacking then bugCount else marineCount) == 0))
    {
      if !attacker.alive || !defender.alive {
        return;
      }
      attacker.Attack(defender, roll);
      if !defender.alive {
        if isMarineAttacking {
          bugCount := bugCount - 1;
          if bugCount == 0 {
            gameOver := true;
          }
        } else {
          marineCount := marineCount - 1;
          if marineCount == 0 {
            gameOver := true;
          }
        }
      }
    }
  }

  /**
   * The end of `gameLoop`: the winner announced from the Marine count, and the
   * hit totals summed over every soldier, living or dead.
   */
  method Conclude(engine: Engine, marines: seq<Soldier>, bugs: seq<Soldier>) returns (winner: Side, marineHits: int, bugHits: int)
    ensures winner == Victor(engine.marineCount)
    ensures marineHits == SumHits(marines) && bugHits == SumHits(bugs)
  {
    if engine.marineCount > 0 {
      winner := Marines;
    } else {
      winner := Bugs;
    }
    marineHits := HitTotal(marines);
    bugHits := HitTotal(bugs);
  }
}
