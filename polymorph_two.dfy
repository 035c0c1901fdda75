/**
 * soldier_w_polymorph2.cpp: one Marine against one Bug.  Its classes differ
 * from the later versions: the carapace resets a Bug's health to exactly 50
 * instead of adding 50, and every Bug attack lowers the target's health
 * directly instead of calling `takeDamage`.
 */
module PolymorphTwo {
  import opened Rules

  /** Health a Bug's carapace restores it to in this version. */
  const RestoredHealth := 50

  /**
   * `Bug::takeDamage` of this version: the first blow that takes health to 0
   * or below with the carapace intact sets health to exactly 50.
   */
  function BugDamage(v: Vitals, d: int): (r: Vitals)
    ensures r.alive ==> v.alive
    ensures r.carapace ==> v.carapace
    ensures v.carapace && !r.carapace ==> r.health == RestoredHealth && r.alive == v.alive
    ensures v.alive && !r.alive <==> v.alive && !v.carapace && v.health - d <= 0
    ensures r.carapace != v.carapace <==> v.carapace && v.health - d <= 0
    ensures r.carapace == v.carapace ==> r.health == v.health - d
  {
    var h := v.health - d;
    if h <= 0 && v.carapace then Vitals(RestoredHealth, v.alive, false)
    else if h <= 0 then Vitals(h, false, v.carapace)
    else v.(health := h)
  }

  /**
   * Virtual dispatch of `takeDamage`: the damage comes off health unless a
   * Bug's carapace is spent, which leaves it at exactly 50.
   */
  function Injure(k: Kind, v: Vitals, d: int): (r: Vitals)
    ensures r.alive ==> v.alive
    ensures r.carapace ==> v.carapace
    ensures r.carapace == v.carapace ==> r.health == v.health - d
    ensures r.carapace != v.carapace ==> k == Bug && r.health == RestoredHealth
  {
    match k
    case Marine => BaseTakeDamage(v, d)
    case Bug => BugDamage(v, d)
  }

  /**
   * One `attack` with roll `roll`: a Marine's hits go through the target's
   * `takeDamage` (100 on a 10, else 50); a Bug's hits subtract 50, or 100 on a
   * 10 (`Bug::slay`), from the target's health and nothing else.
   */
  function Blow(ak: Kind, tk: Kind, v: Vitals, roll: int): (r: Vitals)
    ensures !Hits(ak, roll) ==> r == v
    ensures ak == Bug && Hits(ak, roll) ==> r == v.(health := v.health - HitDamage(roll))
    ensures ak == Marine && Hits(ak, roll) ==> r == Injure(tk, v, HitDamage(roll))
  {
    if !Hits(ak, roll) then v
    else if ak == Bug then v.(health := v.health - HitDamage(roll))
    else Injure(tk, v, HitDamage(roll))
  }

  /**
   * Against the "+50" versions: whatever the blow, the carapace leaves the Bug
   * at exactly 50 here, where the others leave it at its health minus the blow
   * plus 50 (so a critical hit on a Bug at 50 leaves it at 50 here and at 0 there).
   */
  lemma RestoreIsAssignment(v: Vitals, d: int)
    requires v.alive && v.carapace && v.health - d <= 0
    ensures Injure(Bug, v, d).health == 50 && Injure(Bug, v, d).alive && !Injure(Bug, v, d).carapace
    ensures Rules.TakeDamage(Bug, v, d).health == v.health - d + 50
    ensures v.health == 50 && d == 100 ==> Injure(Bug, v, d).health == 50 && Rules.TakeDamage(Bug, v, d).health == 0
  {
  }

  /** The soldier classes of this version, one class with a constant `kind`. */
  class Soldier {
    const kind: Kind
    var health: int
    var alive: bool
    /** `Bug::carapace`; false and never read for a Marine. */
    var carapace: bool

    function State(): Vitals
      reads this
    {
      Vitals(health, alive, carapace)
    }

    constructor (kind: Kind)
      ensures this.kind == kind && State() == Recruit(kind)
    {
      this.kind := kind;
      health := StartHealth;
      alive := true;
      carapace := kind == Bug;
    }

    /** `takeDamage(damage)`, dispatched on the soldier's class. */
    method TakeDamage(damage: int)
      modifies this
      ensures State() == Injure(kind, old(State()), damage)
    {
      health := health - damage;
      if kind == Bug && health <= 0 && carapace {
        health := RestoredHealth;
        carapace := false;
      } else if health <= 0 {
        alive := false;
      }
    }

    /** `slay`: the Marine's calls `takeDamage(100)`, the Bug's subtracts 100 from health. */
    method Slay(target: Soldier)
      requires target != this
      modifies target
      ensures kind == Marine ==> target.State() == Injure(target.kind, old(target.State()), 2 * Damage)
      ensures kind == Bug ==> target.State() == old(target.State()).(health := old(target.health) - 2 * Damage)
    {
      if kind == Marine {
        target.TakeDamage(2 * Damage);
      } else {
        target.health := target.health - 2 * Damage;
      }
    }

    /** `attack(target)` with the roll in place of `rand() % 10 + 1`. */
    method Attack(target: Soldier, roll: int)
      requires target != this && IsRoll(roll)
      modifies target
      ensures target.State() == Blow(kind, target.kind, old(target.State()), roll)
    {
      if roll > Accuracy(kind) {
        if roll == BaseToHit {
          Slay(target);
        } else if kind == Marine {
          target.TakeDamage(Damage);
        } else {
          target.health := target.health - Damage;
        }
      }
    }

    /** The corrected `attack`: both kinds' hits go through the target's `takeDamage`. */
    method AttackCorrected(target: Soldier, roll: int)
      requires target != this && IsRoll(roll)
      modifies target
      ensures target.State() == StrikeCorrected(kind, target.kind, old(target.State()), roll)
    {
      if roll > Accuracy(kind) {
        if roll == BaseToHit {
          target.TakeDamage(2 * Damage);
        } else {
          target.TakeDamage(Damage);
        }
      }
    }
  }

  /** One attack, as written or corrected. */
  function Hit(corrected: bool, ak: Kind, tk: Kind, v: Vitals, roll: int): Vitals
  {
    if corrected then StrikeCorrected(ak, tk, v, roll) else Blow(ak, tk, v, roll)
  }

  /**
   * The battle loop of `main` on values, with the attacks as written or
   * corrected: rounds run while both live and rolls remain; a round the Bug
   * does not survive ends before the Bug's attack.
   */
  function Fight(m: Vitals, b: Vitals, script: seq<Exchange>, corrected: bool): (f: Field)
    ensures f.rounds <= |script|
    ensures f.rounds < |script| ==> !f.marine.alive || !f.bug.alive
    decreases |script|
  {
    if script == [] || !m.alive || !b.alive then Field(m, b, 0)
    else
      var b' := Hit(corrected, Marine, Bug, b, script[0].marineRoll);
      if !b'.alive then Field(m, b', 1)
      else Later(Fight(Hit(corrected, Bug, Marine, m, script[0].bugRoll), b', script[1..], corrected), 1)
  }

  /**
   * As written, a battle that starts with the Marine alive ends with it alive,
   * so a Bug still standing means the script ran out.
   */
  lemma {:induction false} FightSparesMarine(m: Vitals, b: Vitals, script: seq<Exchange>)
    requires m.alive
    ensures Fight(m, b, script, false).marine.alive
    ensures Fight(m, b, script, false).bug.alive ==> Fight(m, b, script, false).rounds == |script|
    decreases |script|
  {
    if script != [] && b.alive {
      var b' := Hit(false, Marine, Bug, b, script[0].marineRoll);
      if b'.alive {
        FightSparesMarine(Hit(false, Bug, Marine, m, script[0].bugRoll), b', script[1..]);
      }
    }
  }

  /**
   * The battle loop of `main`: while both live, the Marine attacks, then (if
   * the Bug still lives) the Bug attacks.  `script[n]` holds the rolls of round
   * `n`; the loop also stops when the script runs out.  As written, the
   * Marine never dies, so the loop can only end through the Bug's death.
   */
  method Battle(marine: Soldier, bug: Soldier, script: seq<Exchange>) returns (rounds: nat)
    requires marine != bug && marine.kind == Marine && bug.kind == Bug
    requires marine.alive && AllRolls(script)
    modifies marine, bug
    ensures Field(marine.State(), bug.State(), rounds) == Fight(old(marine.State()), old(bug.State()), script, false)
    ensures rounds <= |script|
    ensures marine.alive
    ensures bug.alive ==> rounds == |script|
  {
    ghost var target := Fight(marine.State(), bug.State(), script, false);
    FightSparesMarine(marine.State(), bug.State(), script);
    rounds := 0;
    while marine.alive && bug.alive && rounds < |script|
      invariant rounds <= |script|
      invariant target == Later(Fight(marine.State(), bug.State(), script[rounds..], false), rounds)
    {
      var r := script[rounds];
      assert script[rounds..][1..] == script[rounds + 1..];
      rounds := rounds + 1;
      marine.Attack(bug, r.marineRoll);
      if !bug.alive {
        break;
      }
      bug.Attack(marine, r.bugRoll);
      if !marine.alive {
        break;
      }
    }
  }

  /** As written, no sequence of Bug attacks kills a living Marine, however low its health goes. */
  lemma {:induction false} MarineNeverFalls(v: Vitals, rolls: seq<int>)
    requires v.alive
    ensures Bites(v, rolls).alive
    ensures Bites(v, rolls).health == v.health - Landed(rolls)
    decreases |rolls|
  {
    if rolls != [] {
      MarineNeverFalls(Blow(Bug, Marine, v, rolls[0]), rolls[1..]);
    }
  }

  /** A Marine's state after the Bug attacks with the rolls `rolls`, as written. */
  function Bites(v: Vitals, rolls: seq<int>): Vitals
    decreases |rolls|
  {
    if rolls == [] then v else Bites(Blow(Bug, Marine, v, rolls[0]), rolls[1..])
  }

  /** Health taken by Bug attacks with the rolls `rolls`. */
  function Landed(rolls: seq<int>): int
    decreases |rolls|
  {
    if rolls == [] then 0 else (if Hits(Bug, rolls[0]) then HitDamage(rolls[0]) else 0) + Landed(rolls[1..])
  }

  /** Concretely: after two critical bites a Marine is at -100 and still alive. */
  lemma MarineAtMinusHundred()
    ensures Bites(Recruit(Marine), [10, 10]) == Vitals(-100, true, false)
  {
    assert [10, 10][1..] == [10];
  }

  /**
   * The corrected Bug attack, routed through the target's `takeDamage` as the
   * Marine's is: its hits deal 50, or 100 on a 10.
   */
  function StrikeCorrected(ak: Kind, tk: Kind, v: Vitals, roll: int): (r: Vitals)
    ensures !Hits(ak, roll) ==> r == v
    ensures Hits(ak, roll) ==> r == Injure(tk, v, HitDamage(roll))
  {
    if !Hits(ak, roll) then v else Injure(tk, v, HitDamage(roll))
  }

  /**
   * With the corrected attack a Marine is alive exactly while its health is
   * positive, whatever the Bug rolls, and so it falls once enough bites land.
   */
  lemma {:induction false} CorrectedMarineMortal(v: Vitals, rolls: seq<int>)
    requires v.alive <==> v.health > 0
    ensures BitesCorrected(v, rolls).alive <==> BitesCorrected(v, rolls).health > 0
    ensures BitesCorrected(v, rolls).alive ==> v.alive
    ensures BitesCorrected(v, rolls).health == v.health - Landed(rolls)
    decreases |rolls|
  {
    if rolls != [] {
      CorrectedMarineMortal(StrikeCorrected(Bug, Marine, v, rolls[0]), rolls[1..]);
    }
  }

  /** A Marine's state after corrected Bug attacks with the rolls `rolls`. */
  function BitesCorrected(v: Vitals, rolls: seq<int>): Vitals
    decreases |rolls|
  {
    if rolls == [] then v else BitesCorrected(StrikeCorrected(Bug, Marine, v, rolls[0]), rolls[1..])
  }

  /** A soldier counts as alive exactly while its health is positive. */
  predicate Sound(v: Vitals)
  {
    v.alive <==> v.health > 0
  }

  /**
   * The battle loop with the corrected attack: both soldiers stay alive exactly
   * while their health is positive, so the loop ends with one of them dead or
   * with the script spent.
   */
  method BattleCorrected(marine: Soldier, bug: Soldier, script: seq<Exchange>) returns (rounds: nat)
    requires marine != bug && marine.kind == Marine && bug.kind == Bug
    requires Sound(marine.State()) && Sound(bug.State()) && AllRolls(script)
    modifies marine, bug
    ensures Field(marine.State(), bug.State(), rounds) == Fight(old(marine.State()), old(bug.State()), script, true)
    ensures rounds <= |script|
    ensures Sound(marine.State()) && Sound(bug.State())
    ensures rounds < |script| ==> !marine.alive || !bug.alive
  {
    ghost var target := Fight(marine.State(), bug.State(), script, true);
    rounds := 0;
    while marine.alive && bug.alive && rounds < |script|
      invariant rounds <= |script|
      invariant Sound(marine.State()) && Sound(bug.State())
      invariant target == Later(Fight(marine.State(), bug.State(), script[rounds..], true), rounds)
    {
      var r := script[rounds];
      assert script[rounds..][1..] == script[rounds + 1..];
      rounds := rounds + 1;
      marine.AttackCorrected(bug, r.marineRoll);
      if !bug.alive {
        break;
      }
      bug.AttackCorrected(marine, r.bugRoll);
      if !marine.alive {
        break;
      }
    }
  }
}
