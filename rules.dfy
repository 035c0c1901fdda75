/**
 * The combat rules shared by the three simulator versions that heal a Bug by
 * adding 50 to its health (soldier_w_threadpool.cpp, soldier_w_turns.cpp and
 * soldier_w_threads.cpp carry identical Soldier, Marine and Bug classes).
 *
 * A soldier's mutable combat state is captured as a `Vitals` value; every rule
 * is a function from the old value to the new one.  The random roll
 * `rand() % 10 + 1` is a parameter constrained by `IsRoll`.
 */
module Rules {

  /** The two concrete soldier classes. */
  datatype Kind = Marine | Bug

  /** `base_to_hit`: a roll equal to it is a critical hit. */
  const BaseToHit := 10
  /** `damage` of both Marine and Bug; a critical hit deals twice this. */
  const Damage := 50
  /** Health a Bug's carapace gives back on the blow it absorbs. */
  const CarapaceHeal := 50
  /** Health of a newly constructed soldier. */
  const StartHealth := 100

  /** `accuracy`: the roll must exceed it for an attack to hit. */
  function Accuracy(k: Kind): int
  {
    match k
    case Marine => 7
    case Bug => 8
  }

  /** The values `rand() % 10 + 1` can take. */
  predicate IsRoll(roll: int)
  {
    1 <= roll <= 10
  }

  /** An attack by a soldier of kind `k` hits when its roll exceeds its accuracy. */
  predicate Hits(k: Kind, roll: int)
  {
    roll > Accuracy(k)
  }

  /** Damage dealt by a hit with roll `roll`: doubled on a critical hit. */
  function HitDamage(roll: int): int
  {
    if roll == BaseToHit then 2 * Damage else Damage
  }

  /**
   * The mutable part of a soldier: `health`, the `alive` flag and, for a Bug,
   * the one-shot `carapace` (a Marine's is always false and never read).
   */
  datatype Vitals = Vitals(health: int, alive: bool, carapace: bool)

  /** State of a newly constructed soldier of kind `k`. */
  function Recruit(k: Kind): Vitals
  {
    Vitals(StartHealth, true, k == Bug)
  }

  /** `Soldier::takeDamage`: lose `d` health; a soldier at or below 0 is dead. */
  function BaseTakeDamage(v: Vitals, d: int): (r: Vitals)
    ensures r.health == v.health - d
    ensures r.alive <==> v.alive && r.health > 0
    ensures r.carapace == v.carapace
  {
    var h := v.health - d;
    if h <= 0 then Vitals(h, false, v.carapace) else v.(health := h)
  }

  /**
   * `Bug::takeDamage`: the first blow that takes health to 0 or below while the
   * carapace is intact is absorbed (health + 50, carapace consumed, still alive);
   * any later such blow kills.
   */
  function BugTakeDamage(v: Vitals, d: int): (r: Vitals)
    ensures r.alive ==> v.alive
    ensures !v.carapace ==> !r.carapace
    ensures v.carapace ==> r.alive == v.alive
    ensures r.carapace != v.carapace <==> v.carapace && v.health - d <= 0
    ensures v.alive && !r.alive <==> v.alive && !v.carapace && v.health - d <= 0
    ensures r.health == v.health - d + (if r.carapace != v.carapace then CarapaceHeal else 0)
  {
    var h := v.health - d;
    if h <= 0 && v.carapace then
      Vitals(h + CarapaceHeal, v.alive, false)
    else if h <= 0 then
      Vitals(h, false, v.carapace)
    else
      v.(health := h)
  }

  /** Virtual dispatch of `takeDamage` on the target's class. */
  function TakeDamage(k: Kind, v: Vitals, d: int): (r: Vitals)
    ensures r.alive ==> v.alive
    ensures !v.carapace ==> !r.carapace
  {
    match k
    case Marine => BaseTakeDamage(v, d)
    case Bug => BugTakeDamage(v, d)
  }

  /**
   * What one `attack` by a soldier of kind `ak` with roll `roll` does to a
   * target of kind `tk`.  A Marine routes every hit through `takeDamage`
   * (`Marine::slay` calls `takeDamage(100)`); a Bug's critical hit goes through
   * `Bug::slay`, which subtracts 100 from the target's health directly.
   */
  function Strike(ak: Kind, tk: Kind, v: Vitals, roll: int): (r: Vitals)
    ensures !Hits(ak, roll) ==> r == v
    ensures r.alive ==> v.alive
    ensures !v.carapace ==> !r.carapace
    ensures ak == Bug && roll == BaseToHit ==> r.alive == v.alive && r.carapace == v.carapace
  {
    if !Hits(ak, roll) then v
    else if roll == BaseToHit && ak == Bug then v.(health := v.health - 2 * Damage)
    else TakeDamage(tk, v, HitDamage(roll))
  }

  /** A Marine hit deals 50, or 100 on a critical roll, through the target's `takeDamage`. */
  lemma MarineHitDamage(tk: Kind, v: Vitals, roll: int)
    requires IsRoll(roll)
    ensures Hits(Marine, roll) <==> roll >= 8
    ensures Hits(Marine, roll) ==> Strike(Marine, tk, v, roll) == TakeDamage(tk, v, if roll == 10 then 100 else 50)
  {
  }

  /** A Bug hits only on 9 or 10; its critical hit lowers health by 100 and never touches `alive`. */
  lemma BugHitDamage(tk: Kind, v: Vitals, roll: int)
    requires IsRoll(roll)
    ensures Hits(Bug, roll) <==> roll >= 9
    ensures roll == 9 ==> Strike(Bug, tk, v, roll) == TakeDamage(tk, v, 50)
    ensures roll == 10 ==> Strike(Bug, tk, v, roll) == v.(health := v.health - 100)
  {
  }

  // ----- sequences of blows -----

  /** The state after taking the blows `ds` one after another. */
  function Blows(k: Kind, v: Vitals, ds: seq<int>): Vitals
    decreases |ds|
  {
    if ds == [] then v else Blows(k, TakeDamage(k, v, ds[0]), ds[1..])
  }

  /** How many of the blows `ds` the carapace absorbs. */
  function Saves(k: Kind, v: Vitals, ds: seq<int>): nat
    decreases |ds|
  {
    if ds == [] then 0
    else
      var w := TakeDamage(k, v, ds[0]);
      (if v.carapace && !w.carapace then 1 else 0) + Saves(k, w, ds[1..])
  }

  /** Whatever blows a soldier takes, its carapace absorbs at most one, and none once it is gone. */
  lemma {:induction false} CarapaceSavesAtMostOnce(k: Kind, v: Vitals, ds: seq<int>)
    ensures Saves(k, v, ds) <= (if v.carapace then 1 else 0)
    ensures !v.carapace ==> !Blows(k, v, ds).carapace
    decreases |ds|
  {
    if ds != [] {
      var w := TakeDamage(k, v, ds[0]);
      CarapaceSavesAtMostOnce(k, w, ds[1..]);
    }
  }

  /** Liveness is monotone: no sequence of blows brings a dead soldier back. */
  lemma {:induction false} DeadStaysDead(k: Kind, v: Vitals, ds: seq<int>)
    ensures Blows(k, v, ds).alive ==> v.alive
    decreases |ds|
  {
    if ds != [] {
      DeadStaysDead(k, TakeDamage(k, v, ds[0]), ds[1..]);
    }
  }

  /** Once its carapace is gone, the first blow that leaves a living Bug at 0 or below kills it. */
  lemma SpentCarapaceLethal(v: Vitals, d: int)
    requires v.alive && !v.carapace && v.health - d <= 0
    ensures !TakeDamage(Bug, v, d).alive && TakeDamage(Bug, v, d).health <= 0
  {
  }

  // ----- rosters -----

  /** Number of living soldiers in a roster. */
  function CountAlive(vs: seq<Vitals>): (n: nat)
    ensures n <= |vs|
  {
    if vs == [] then 0 else CountAlive(vs[..|vs| - 1]) + (if vs[|vs| - 1].alive then 1 else 0)
  }

  /** A roster has a living member exactly when its living count is positive. */
  lemma {:induction false} CountAlivePositive(vs: seq<Vitals>)
    ensures CountAlive(vs) > 0 <==> exists i :: 0 <= i < |vs| && vs[i].alive
  {
    if vs != [] {
      var p := vs[..|vs| - 1];
      CountAlivePositive(p);
      if CountAlive(p) > 0 {
        var i :| 0 <= i < |p| && p[i].alive;
        assert vs[i].alive;
      }
      if exists i :: 0 <= i < |vs| && vs[i].alive {
        var i :| 0 <= i < |vs| && vs[i].alive;
        if i < |p| { assert p[i].alive; }
      }
    }
  }

  /** Replacing one member changes the living count by that member's change of liveness only. */
  lemma {:induction false} CountAliveUpdate(vs: seq<Vitals>, j: nat, w: Vitals)
    requires j < |vs|
    ensures CountAlive(vs[j := w]) + (if vs[j].alive then 1 else 0) == CountAlive(vs) + (if w.alive then 1 else 0)
  {
    var n := |vs|;
    var p := vs[..n - 1];
    var u := vs[j := w];
    assert u[..n - 1] == if j < n - 1 then p[j := w] else p;
    if j < n - 1 {
      CountAliveUpdate(p, j, w);
    }
  }

  // ----- post-battle verdicts -----

  /** The accuracy comparison printed after a fight. */
  datatype HitVerdict = MarinesMoreAccurate | BugsMoreEffective | HitDraw

  /** Compares the two sides' hit totals. */
  function CompareHits(marineHits: int, bugHits: int): (r: HitVerdict)
    ensures r == MarinesMoreAccurate <==> marineHits > bugHits
    ensures r == BugsMoreEffective <==> bugHits > marineHits
    ensures r == HitDraw <==> marineHits == bugHits
  {
    if marineHits > bugHits then MarinesMoreAccurate
    else if bugHits > marineHits then BugsMoreEffective
    else HitDraw
  }

  /** The side announced as victorious once the battle loop exits. */
  datatype Side = Marines | Bugs

  /** "Marine victory" exactly when the Marine count is still positive. */
  function Victor(marineCount: int): (r: Side)
    ensures r == Marines <==> marineCount > 0
  {
    if marineCount > 0 then Marines else Bugs
  }

  /** When the count tracks the living Marines, a Marine victory means some Marine is alive. */
  lemma VictorMeansSurvivor(marines: seq<Vitals>, marineCount: int)
    requires marineCount == CountAlive(marines)
    ensures Victor(marineCount) == Marines <==> exists i :: 0 <= i < |marines| && marines[i].alive
  {
    CountAlivePositive(marines);
  }

  /**
   * The rolls of one round of a one-on-one battle loop: the Marine's, then the
   * Bug's (each a `rand() % 10 + 1` in `main`).
   */
  datatype Exchange = Exchange(marineRoll: int, bugRoll: int)

  /** Every roll of a script is a die roll. */
  predicate AllRolls(script: seq<Exchange>)
  {
    forall n :: 0 <= n < |script| ==> IsRoll(script[n].marineRoll) && IsRoll(script[n].bugRoll)
  }

  /** Both soldiers after a one-on-one battle, and the number of rounds begun. */
  datatype Field = Field(marine: Vitals, bug: Vitals, rounds: nat)

  /** `f` with `n` more rounds counted. */
  function Later(f: Field, n: nat): Field
  {
    f.(rounds := f.rounds + n)
  }
}
