/**
 * soldier_w_polymorph.cpp: one Marine against one Bug, with the combat rules
 * written out in `main` and the carapace in `Bug::protect`.  `protect` restores
 * 50 health only when the blow left the Bug at exactly 0, and `main` marks the
 * Bug dead only once its carapace is gone.
 */
module Polymorph {
  import opened Rules

  class Marine {
    var health: int
    var alive: bool

    function State(): Vitals
      reads this
    {
      Vitals(health, alive, false)
    }

    constructor ()
      ensures State() == Recruit(Kind.Marine)
    {
      health := StartHealth;
      alive := true;
    }
  }

  class Bug {
    var health: int
    var alive: bool
    var carapace: bool

    function State(): Vitals
      reads this
    {
      Vitals(health, alive, carapace)
    }

    constructor ()
      ensures State() == Recruit(Kind.Bug)
    {
      health := StartHealth;
      alive := true;
      carapace := true;
    }

    /** `protect()`: at exactly 0 health, gain 50 and lose the carapace; otherwise nothing. */
    method Protect()
      modifies this
      ensures State() == Protected(old(State()))
    {
      if health == 0 {
        health := health + CarapaceHeal;
        carapace := false;
      }
    }

    /** `protect()` as evidently intended: it fires on any health of 0 or below. */
    method ProtectCorrected()
      modifies this
      ensures State() == ProtectedCorrected(old(State()))
    {
      if health <= 0 {
        health := health + CarapaceHeal;
        carapace := false;
      }
    }
  }

  /** `Bug::protect` on values: the carapace is spent, for 50 health, exactly when health is 0. */
  function Protected(b: Vitals): (r: Vitals)
    ensures r.alive == b.alive
    ensures r.carapace == (b.carapace && b.health != 0)
    ensures r.health == b.health + (if b.health == 0 then CarapaceHeal else 0)
  {
    if b.health == 0 then b.(health := b.health + CarapaceHeal, carapace := false) else b
  }

  /** The corrected `protect` on values: the carapace is spent, for 50 health, whenever health is 0 or below. */
  function ProtectedCorrected(b: Vitals): (r: Vitals)
    ensures r.alive == b.alive
    ensures r.carapace == (b.carapace && b.health > 0)
    ensures r.health == b.health + (if b.health <= 0 then CarapaceHeal else 0)
  {
    if b.health <= 0 then b.(health := b.health + CarapaceHeal, carapace := false) else b
  }

  /**
   * The Marine's half of a round: a hit takes 50, or 100 on a 10; then at 0 or
   * below the carapace is offered to `protect` if intact, or else the Bug dies.
   */
  function Shot(b: Vitals, roll: int): (r: Vitals)
    ensures !Hits(Kind.Marine, roll) ==> r == b
    ensures r.alive ==> b.alive
    ensures b.carapace ==> r.alive == b.alive
    ensures Hits(Kind.Marine, roll) ==> r.carapace == (b.carapace && b.health - HitDamage(roll) != 0)
    ensures Hits(Kind.Marine, roll) ==>
      r.health == b.health - HitDamage(roll) + (if b.carapace && b.health - HitDamage(roll) == 0 then CarapaceHeal else 0)
    ensures Hits(Kind.Marine, roll) ==> (r.alive <==> b.alive && (b.carapace || b.health - HitDamage(roll) > 0))
  {
    if !Hits(Kind.Marine, roll) then b
    else
      var w := b.(health := b.health - HitDamage(roll));
      if w.health <= 0 && w.carapace then Protected(w)
      else if w.health <= 0 then w.(alive := false)
      else w
  }

  /** The Marine's half of a round with the corrected `protect`. */
  function ShotCorrected(b: Vitals, roll: int): (r: Vitals)
    ensures !Hits(Kind.Marine, roll) ==> r == b
    ensures r.alive ==> b.alive
    ensures Hits(Kind.Marine, roll) ==> r.carapace == (b.carapace && b.health - HitDamage(roll) > 0)
    ensures Hits(Kind.Marine, roll) ==>
      r.health == b.health - HitDamage(roll) + (if b.carapace && b.health - HitDamage(roll) <= 0 then CarapaceHeal else 0)
    ensures Hits(Kind.Marine, roll) ==> (r.alive <==> b.alive && (b.carapace || b.health - HitDamage(roll) > 0))
  {
    if !Hits(Kind.Marine, roll) then b
    else
      var w := b.(health := b.health - HitDamage(roll));
      if w.health <= 0 && w.carapace then ProtectedCorrected(w)
      else if w.health <= 0 then w.(alive := false)
      else w
  }

  /** The Bug's half of a round: a hit takes 50, or 100 on a 10, and at 0 or below the Marine dies. */
  function Bite(m: Vitals, roll: int): (r: Vitals)
    ensures !Hits(Kind.Bug, roll) ==> r == m
    ensures Hits(Kind.Bug, roll) ==> r.health == m.health - HitDamage(roll)
    ensures r.alive <==> m.alive && (r.health > 0 || !Hits(Kind.Bug, roll))
  {
    if !Hits(Kind.Bug, roll) then m
    else
      var w := m.(health := m.health - HitDamage(roll));
      if w.health <= 0 then w.(alive := false) else w
  }

  /**
   * The battle loop of `main` on values: rounds run while both live and rolls
   * remain; a round the Bug does not survive ends before the Bug's attack.
   */
  function Play(m: Vitals, b: Vitals, script: seq<Exchange>): (f: Field)
    ensures f.rounds <= |script|
    ensures f.rounds < |script| ==> !f.marine.alive || !f.bug.alive
    decreases |script|
  {
    if script == [] || !m.alive || !b.alive then Field(m, b, 0)
    else
      var b' := Shot(b, script[0].marineRoll);
      if !b'.alive then Field(m, b', 1)
      else Later(Play(Bite(m, script[0].bugRoll), b', script[1..]), 1)
  }

  /** The Marine's half of a round of `main`'s loop; `killed` is its `break`. */
  method Fire(bug: Bug, roll: int) returns (killed: bool)
    requires IsRoll(roll) && bug.alive
    modifies bug
    ensures bug.State() == Shot(old(bug.State()), roll)
    ensures killed <==> !bug.alive
  {
    killed := false;
    if roll > Accuracy(Kind.Marine) {
      if roll == BaseToHit {
        bug.health := bug.health - 2 * Damage;
      } else {
        bug.health := bug.health - Damage;
      }
      if bug.health <= 0 && bug.carapace {
        bug.Protect();
      } else if bug.health <= 0 && !bug.carapace {
        bug.alive := false;
        killed := true;
      }
    }
  }

  /** The Bug's half of a round of `main`'s loop; `killed` is its `break`. */
  method Claw(marine: Marine, roll: int) returns (killed: bool)
    requires IsRoll(roll) && marine.alive
    modifies marine
    ensures marine.State() == Bite(old(marine.State()), roll)
    ensures killed <==> !marine.alive
  {
    killed := false;
    if roll > Accuracy(Kind.Bug) {
      if roll == BaseToHit {
        marine.health := marine.health - 2 * Damage;
      } else {
        marine.health := marine.health - Damage;
      }
      if marine.health <= 0 {
        marine.alive := false;
        killed := true;
      }
    }
  }

  /** `main`'s battle loop, with `script[n]` holding the rolls of round `n`. */
  method Battle(marine: Marine, bug: Bug, script: seq<Exchange>) returns (rounds: nat)
    requires AllRolls(script)
    modifies marine, bug
    ensures Field(marine.State(), bug.State(), rounds) == Play(old(marine.State()), old(bug.State()), script)
  {
    ghost var target := Play(marine.State(), bug.State(), script);
    rounds := 0;
    while marine.alive && bug.alive && rounds < |script|
      invariant rounds <= |script|
      invariant target == Later(Play(marine.State(), bug.State(), script[rounds..]), rounds)
    {
      var r := script[rounds];
      assert script[rounds..][1..] == script[rounds + 1..];
      rounds := rounds + 1;
      var bugDown := Fire(bug, r.marineRoll);
      if bugDown {
        break;
      }
      var marineDown := Claw(marine, r.bugRoll);
      if marineDown {
        break;
      }
    }
  }

  /**
   * A Bug whose carapace is intact and whose health is below 0 is never
   * marked dead, whatever the Marine rolls: `protect` never fires again.
   */
  lemma {:induction false} CarapaceBelowZeroImmortal(b: Vitals, rolls: seq<int>)
    requires b.alive && b.carapace && b.health < 0
    ensures Volley(b, rolls).alive && Volley(b, rolls).carapace && Volley(b, rolls).health < 0
    decreases |rolls|
  {
    if rolls != [] {
      CarapaceBelowZeroImmortal(Shot(b, rolls[0]), rolls[1..]);
    }
  }

  /** The Bug after the Marine fires with the rolls `rolls`, as written. */
  function Volley(b: Vitals, rolls: seq<int>): Vitals
    decreases |rolls|
  {
    if rolls == [] then b else Volley(Shot(b, rolls[0]), rolls[1..])
  }

  /** A 9 and then a 10 leave a fresh Bug at -50 with its carapace intact. */
  lemma NineThenTenStrandsCarapace()
    ensures Volley(Recruit(Kind.Bug), [9, 10]) == Vitals(-50, true, true)
  {
    assert [9, 10][1..] == [10];
  }

  /**
   * So after a 9 and a 10 the battle can end only in the Marine's death: for
   * any rolls, the Bug is alive when `Play` stops.
   */
  lemma {:induction false} StrandedBugOutlasts(m: Vitals, b: Vitals, script: seq<Exchange>)
    requires b.alive && b.carapace && b.health < 0
    ensures Play(m, b, script).bug.alive
    decreases |script|
  {
    if script != [] && m.alive {
      StrandedBugOutlasts(Bite(m, script[0].bugRoll), Shot(b, script[0].marineRoll), script[1..]);
    }
  }

  /** The Bug after the Marine fires with the rolls `rolls`, with the corrected `protect`. */
  function VolleyCorrected(b: Vitals, rolls: seq<int>): Vitals
    decreases |rolls|
  {
    if rolls == [] then b else VolleyCorrected(ShotCorrected(b, rolls[0]), rolls[1..])
  }

  /** Number of the rolls in `rolls` on which the Marine hits. */
  function Landings(rolls: seq<int>): nat
    decreases |rolls|
  {
    if rolls == [] then 0 else (if Hits(Kind.Marine, rolls[0]) then 1 else 0) + Landings(rolls[1..])
  }

  /** States a Bug can be in under the corrected rules: an intact carapace over positive health, or at most 50. */
  predicate Armoured(b: Vitals)
  {
    b.alive ==> (b.carapace && 0 < b.health <= StartHealth) || (!b.carapace && b.health <= CarapaceHeal)
  }

  /** Marine hits a Bug can still take: three from above 50 with a carapace, two with one, else one. */
  function HitsLeft(b: Vitals): nat
  {
    if !b.alive then 0 else if b.carapace && b.health > Damage then 3 else if b.carapace then 2 else 1
  }

  /** With the corrected `protect`, every landed hit costs a living Bug at least one of its remaining hits. */
  lemma ShotCorrectedWears(b: Vitals, roll: int)
    requires Armoured(b) && IsRoll(roll)
    ensures Armoured(ShotCorrected(b, roll))
    ensures Hits(Kind.Marine, roll) && b.alive ==> HitsLeft(ShotCorrected(b, roll)) < HitsLeft(b)
  {
  }

  /**
   * With the corrected `protect`, a Bug dies once the Marine has landed as many
   * hits as it has left; a fresh Bug dies by the third.
   */
  lemma {:induction false} CorrectedBugFalls(b: Vitals, rolls: seq<int>)
    requires Armoured(b) && forall n :: 0 <= n < |rolls| ==> IsRoll(rolls[n])
    ensures Landings(rolls) >= HitsLeft(b) ==> !VolleyCorrected(b, rolls).alive
    decreases |rolls|
  {
    if rolls != [] {
      ShotCorrectedWears(b, rolls[0]);
      CorrectedBugFalls(ShotCorrected(b, rolls[0]), rolls[1..]);
    }
  }

  /** A fresh Bug has three hits left. */
  lemma FreshBugHasThree()
    ensures Armoured(Recruit(Kind.Bug)) && HitsLeft(Recruit(Kind.Bug)) == 3
  {
  }
}
