/**
 * soldier.cpp, the first version: one Marine against one Bug with the rules
 * written out in `main`.  Every Marine hit takes 50 from the Bug, so the
 * Bug's health always lands on exactly 0 when `protect` is consulted; the
 * Bug's hits only check whether the Marine is already down, and never lower
 * its health.
 */
module BasicSoldier {
  import opened Rules

  class Marine {
    var health: int
    var alive: bool

    constructor ()
      ensures health == StartHealth && alive
    {
      health := StartHealth;
      alive := true;
    }
  }

  class Bug {
    var health: int
    var alive: bool
    var carapace: bool

    function State(): Vitals
      reads this
    {
      Vitals(health, alive, carapace)
    }

    constructor ()
      ensures State() == Recruit(Kind.Bug)
    {
      health := StartHealth;
      alive := true;
      carapace := true;
    }

    /** `protect()`: at exactly 0 health, gain 50 and lose the carapace; otherwise nothing. */
    method Protect()
      modifies this
      ensures old(health) == 0 ==> State() == old(State()).(health := CarapaceHeal, carapace := false)
      ensures old(health) != 0 ==> State() == old(State())
    {
      if health == 0 {
        health := health + CarapaceHeal;
        carapace := false;
      }
    }
  }

  /** Number of the first `n` rounds of `script` in which the Marine hits. */
  function Landed(script: seq<Exchange>, n: nat): nat
    requires n <= |script|
  {
    if n == 0 then 0
    else Landed(script, n - 1) + (if Hits(Kind.Marine, script[n - 1].marineRoll) then 1 else 0)
  }

  /**
   * The Bug after `n` Marine hits: 100 with its carapace, 50 with it, 50
   * without it, then dead at 0.
   */
  function Worn(n: nat): (v: Vitals)
    ensures v.alive <==> n < 3
    ensures v.alive ==> v.health > 0
    ensures v.carapace ==> n < 2
  {
    if n == 0 then Recruit(Kind.Bug)
    else if n == 1 then Vitals(StartHealth - Damage, true, true)
    else if n == 2 then Vitals(StartHealth - Damage, true, false)
    else Vitals(0, false, false)
  }

  /** One Marine hit moves a living Bug one step along `Worn`. */
  lemma WornStep(n: nat)
    requires n < 3
    ensures var v := Worn(n); var w := v.(health := v.health - Damage);
      w.health > 0 ==> Worn(n + 1) == w
    ensures var v := Worn(n); var w := v.(health := v.health - Damage);
      w.health <= 0 ==> w.health == 0 && (w.carapace ==> Worn(n + 1) == w.(health := CarapaceHeal, carapace := false))
    ensures var v := Worn(n); var w := v.(health := v.health - Damage);
      w.health <= 0 && !w.carapace ==> Worn(n + 1) == Vitals(0, false, false)
  {
  }

  /**
   * The Bug's half of a round of `main`: on a hit, a Marine already at 0 or
   * below is marked dead and the loop is to stop (`fell`); the hit itself
   * takes nothing from the Marine.
   */
  method Claws(marine: Marine, roll: int) returns (fell: bool)
    modifies marine
    ensures fell <==> Hits(Kind.Bug, roll) && old(marine.health) <= 0
    ensures marine.health == old(marine.health)
    ensures marine.alive == (old(marine.alive) && !fell)
  {
    fell := false;
    if roll > Accuracy(Kind.Bug) {
      if marine.health <= 0 {
        marine.alive := false;
        fell := true;
      }
    }
  }

  /**
   * `main`: a fresh Marine and Bug fight while both live, `script[n]` holding
   * the rolls of round `n`.  The Bug is worn down one step per Marine hit and
   * dies on the third; the Marine is never touched.
   */
  method Skirmish(script: seq<Exchange>) returns (marine: Marine, bug: Bug, rounds: nat)
    requires AllRolls(script)
    ensures marine.health == StartHealth && marine.alive
    ensures rounds <= |script| && bug.State() == Worn(Landed(script, rounds))
    ensures bug.alive ==> rounds == |script|
    ensures !bug.alive <==> Landed(script, rounds) == 3
  {
    marine := new Marine();
    bug := new Bug();
    rounds := 0;
    while marine.alive && bug.alive && rounds < |script|
      invariant rounds <= |script| && Landed(script, rounds) <= 3
      invariant marine.health == StartHealth && marine.alive
      invariant bug.State() == Worn(Landed(script, rounds))
      invariant !bug.alive ==> Landed(script, rounds) == 3
    {
      var r := script[rounds];
      ghost var n := Landed(script, rounds);
      rounds := rounds + 1;
      assert Landed(script, rounds) == n + (if Hits(Kind.Marine, r.marineRoll) then 1 else 0);
      if r.marineRoll > Accuracy(Kind.Marine) {
        WornStep(n);
        bug.health := bug.health - Damage;
        if bug.health <= 0 && bug.carapace {
          bug.Protect();
        } else if bug.health <= 0 && !bug.carapace {
          bug.alive := false;
          break;
        }
      }
      var fell := Claws(marine, r.bugRoll);
      // No hit ever lowers the Marine's health, so it never falls.
      assert !fell;
      if fell {
        break;
      }
    }
  }
}
