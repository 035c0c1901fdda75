/**
 * soldier_w_threadpool.cpp: the `battle` step of `gameLoop` with its kill
 * attribution, and the post-battle statistics of `postProcessing`.
 *
 * Concurrency is left out: one call of `battle` is one sequential step, and
 * `alive.exchange(false)` stores false and returns the value it replaced.
 */
module PoolBattle {
  import opened Rules
  import opened Combatant

  /** The defender's state after one `battle` step and whether the attacker was credited. */
  datatype Outcome = Outcome(defender: Vitals, credited: bool)

  /**
   * One `battle` step, as written, on a defender that was alive on entry:
   * attack; if the defender's health is now 0 or below, exchange its `alive`
   * flag for false and credit the attacker when the PREVIOUS value was false.
   */
  function Attribute(ak: Kind, dk: Kind, v: Vitals, roll: int): (o: Outcome)
    ensures o.defender.health == Strike(ak, dk, v, roll).health
    ensures o.defender.alive <==> Strike(ak, dk, v, roll).alive && Strike(ak, dk, v, roll).health > 0
    ensures o.credited <==> Strike(ak, dk, v, roll).health <= 0 && !Strike(ak, dk, v, roll).alive
  {
    var w := Strike(ak, dk, v, roll);
    if w.health <= 0 then
      var previous := w.alive;
      Outcome(w.(alive := false), !previous)
    else
      Outcome(w, false)
  }

  /**
   * As written, a living defender ends the step dead exactly when its health is
   * gone, but the attacker is credited exactly when the defender's own
   * `takeDamage` already cleared `alive` during the attack.
   */
  lemma AttributionAsWritten(ak: Kind, dk: Kind, v: Vitals, roll: int)
    requires v.alive
    ensures Attribute(ak, dk, v, roll).defender.health == Strike(ak, dk, v, roll).health
    ensures !Attribute(ak, dk, v, roll).defender.alive <==> Strike(ak, dk, v, roll).health <= 0
    ensures Attribute(ak, dk, v, roll).credited <==> !Strike(ak, dk, v, roll).alive
  {
    var w := Strike(ak, dk, v, roll);
    if Hits(ak, roll) && !(roll == BaseToHit && ak == Bug) {
      assert w == TakeDamage(dk, v, HitDamage(roll));
      if dk == Bug && !w.alive {
        assert !v.carapace;
      }
    }
  }

  /** A Marine is credited with a living Bug exactly when it hits and the blow finds the carapace already spent. */
  lemma MarineCredit(v: Vitals, roll: int)
    requires IsRoll(roll) && v.alive
    ensures Attribute(Marine, Bug, v, roll).credited <==> roll >= 8 && !v.carapace && v.health - HitDamage(roll) <= 0
  {
    AttributionAsWritten(Marine, Bug, v, roll);
  }

  /** A Bug is credited with a living Marine only for a plain hit (roll 9) on a Marine at 50 health or less. */
  lemma BugCredit(v: Vitals, roll: int)
    requires IsRoll(roll) && v.alive
    ensures Attribute(Bug, Marine, v, roll).credited <==> roll == 9 && v.health <= 50
  {
    AttributionAsWritten(Bug, Marine, v, roll);
  }

  /**
   * Finding, as written: a Bug's critical hit that takes a Marine to 0 or below
   * kills it without crediting anyone, and so does a Marine's critical hit on a
   * Bug at 50 whose carapace restores it to exactly 0.
   */
  lemma UncreditedKills(v: Vitals)
    requires v.alive && v.health <= 100
    ensures !Attribute(Bug, Marine, v, 10).defender.alive && !Attribute(Bug, Marine, v, 10).credited
    ensures var o := Attribute(Marine, Bug, Vitals(50, true, true), 10); !o.defender.alive && !o.credited
  {
  }

  /**
   * Finding, as written: the opposing count, decremented only on a credit, drifts
   * above the number of living defenders whenever a kill goes uncredited.
   */
  lemma {:induction false} AsWrittenCountDrifts(roster: seq<Vitals>, j: nat, ak: Kind, dk: Kind, roll: int, count: int)
    requires j < |roster| && roster[j].alive && count == CountAlive(roster)
    ensures var o := Attribute(ak, dk, roster[j], roll);
      count - (if o.credited then 1 else 0)
        == CountAlive(roster[j := o.defender]) + (if !o.defender.alive && !o.credited then 1 else 0)
  {
    var o := Attribute(ak, dk, roster[j], roll);
    CountAliveUpdate(roster, j, o.defender);
  }

  /** A concrete drift: one Marine, killed by a Bug's critical hit, is still counted, so the game never ends. */
  lemma LoneMarineStillCounted()
    ensures var o := Attribute(Bug, Marine, Recruit(Marine), 10);
      CountAlive([o.defender]) == 0 && 1 - (if o.credited then 1 else 0) == 1
  {
    var o := Attribute(Bug, Marine, Recruit(Marine), 10);
    assert [o.defender][..0] == [];
  }

  /**
   * The corrected step: the attacker whose attack takes a living defender to 0
   * or below claims it, i.e. the credit goes with the exchange that observes
   * `alive` still true.
   */
  function AttributeCorrected(ak: Kind, dk: Kind, v: Vitals, roll: int): (o: Outcome)
    ensures o.credited <==> v.alive && !o.defender.alive
    ensures o.defender.health == Strike(ak, dk, v, roll).health
    ensures !o.defender.alive <==> !v.alive || Strike(ak, dk, v, roll).health <= 0
  {
    var w := Strike(ak, dk, v, roll);
    if w.health <= 0 then
      Outcome(w.(alive := false), v.alive)
    else
      assert w.alive == v.alive by {
        if Hits(ak, roll) && !(roll == BaseToHit && ak == Bug) {
          assert w == TakeDamage(dk, v, HitDamage(roll));
        }
      }
      Outcome(w, false)
  }

  /** With the corrected step the opposing count always equals the number of living defenders. */
  lemma {:induction false} CorrectedCountTracksLiving(roster: seq<Vitals>, j: nat, ak: Kind, dk: Kind, roll: int, count: int)
    requires j < |roster| && roster[j].alive && count == CountAlive(roster)
    ensures var o := AttributeCorrected(ak, dk, roster[j], roll);
      count - (if o.credited then 1 else 0) == CountAlive(roster[j := o.defender])
  {
    var o := AttributeCorrected(ak, dk, roster[j], roll);
    CountAliveUpdate(roster, j, o.defender);
  }

  /** The state `gameLoop` shares with its `battle` lambda. */
  class Engine {
    var marineCount: int
    var bugCount: int
    var gameOver: bool

    constructor (marines: nat, bugs: nat)
      ensures marineCount == marines && bugCount == bugs && !gameOver
    {
      marineCount := marines;
      bugCount := bugs;
      gameOver := false;
    }

    /** The `battle` lambda, as written. */
    method Battle(attacker: Soldier, defender: Soldier, isMarineAttacking: bool, roll: int)
      requires IsRoll(roll) && attacker != defender
      modifies this, attacker, defender
      ensures defender.hits == old(defender.hits) && defender.enemiesKilled == old(defender.enemiesKilled)
      ensures attacker.State() == old(attacker.State())
      ensures !old(attacker.alive && defender.alive) ==>
        && defender.State() == old(defender.State())
        && attacker.hits == old(attacker.hits) && attacker.enemiesKilled == old(attacker.enemiesKilled)
        && marineCount == old(marineCount) && bugCount == old(bugCount) && gameOver == old(gameOver)
      ensures old(attacker.alive && defender.alive) ==>
        var o := Attribute(attacker.kind, defender.kind, old(defender.State()), roll);
        && defender.State() == o.defender
        && attacker.hits == old(attacker.hits) + (if Hits(attacker.kind, roll) then 1 else 0)
        && attacker.enemiesKilled == old(attacker.enemiesKilled) + (if o.credited then [defender.name] else [])
        && bugCount == old(bugCount) - (if o.credited && isMarineAttacking then 1 else 0)
        && marineCount == old(marineCount) - (if o.credited && !isMarineAttacking then 1 else 0)
        && gameOver == (old(gameOver) || (o.credited && (if isMarineAttacking then bugCount else marineCount) == 0))
    {
      if !attacker.alive || !defender.alive {
        return;
      }
      attacker.Attack(defender, roll);
      if defender.health <= 0 {
        var previous := defender.ExchangeAliveFalse();
        if !previous {
          attacker.enemiesKilled := attacker.enemiesKilled + [defender.name];
          if isMarineAttacking {
            bugCount := bugCount - 1;
            if bugCount == 0 {
              gameOver := true;
            }
          } else {
            marineCount := marineCount - 1;
            if marineCount == 0 {
              gameOver := true;
            }
          }
        }
      }
    }
  }

  // ----- post-battle statistics -----

  /** Length of a soldier's kill list. */
  function Kills(s: Soldier): nat
    reads s
  {
    |s.enemiesKilled|
  }

  /** Sum of the kill-list lengths of a roster. */
  function SumKills(force: seq<Soldier>): int
    reads force
  {
    if force == [] then 0 else SumKills(force[..|force| - 1]) + Kills(force[|force| - 1])
  }

  /** The largest kill-list length in `force`, floored at `floor`. */
  function MaxKills(force: seq<Soldier>, floor: int): (m: int)
    reads force
    ensures m >= floor
  {
    if force == [] then floor
    else
      var p := MaxKills(force[..|force| - 1], floor);
      var k := Kills(force[|force| - 1]);
      if k > p then k else p
  }

  /** The soldiers of `force` whose kill-list length is `k`, in roster order. */
  function Achievers(force: seq<Soldier>, k: int): (r: seq<Soldier>)
    reads force
    ensures |r| <= |force|
  {
    if force == [] then []
    else
      var last := force[|force| - 1];
      Achievers(force[..|force| - 1], k) + (if Kills(last) == k then [last] else [])
  }

  /** The running maximum bounds every kill count and is the floor or one of them. */
  lemma {:induction false} MaxKillsBounds(force: seq<Soldier>, floor: int)
    ensures forall i :: 0 <= i < |force| ==> Kills(force[i]) <= MaxKills(force, floor)
    ensures MaxKills(force, floor) == floor || exists i :: 0 <= i < |force| && Kills(force[i]) == MaxKills(force, floor)
  {
    if force != [] {
      var p := force[..|force| - 1];
      MaxKillsBounds(p, floor);
      forall i | 0 <= i < |p|
        ensures Kills(force[i]) <= MaxKills(force, floor)
      {
        assert force[i] == p[i];
      }
      if MaxKills(p, floor) != floor && MaxKills(force, floor) == MaxKills(p, floor) {
        var i :| 0 <= i < |p| && Kills(p[i]) == MaxKills(p, floor);
        assert force[i] == p[i];
      }
    }
  }

  /** Only soldiers of `force` with exactly `k` kills are achievers. */
  lemma {:induction false} AchieversSound(force: seq<Soldier>, k: int)
    ensures forall x :: x in Achievers(force, k) ==> x in force && Kills(x) == k
  {
    if force != [] {
      var p := force[..|force| - 1];
      AchieversSound(p, k);
      forall x | x in p
        ensures x in force
      {
        var i :| 0 <= i < |p| && p[i] == x;
        assert force[i] == x;
      }
    }
  }

  /** No soldier reaches a count above the running maximum. */
  lemma {:induction false} AchieversAbove(force: seq<Soldier>, k: int, floor: int)
    requires k > MaxKills(force, floor)
    ensures Achievers(force, k) == []
  {
    if force != [] {
      AchieversAbove(force[..|force| - 1], k, floor);
    }
  }

  /** Every soldier of `force` achieving `k` kills is among the achievers. */
  lemma {:induction false} AchieversComplete(force: seq<Soldier>, k: int, i: nat)
    requires i < |force| && Kills(force[i]) == k
    ensures force[i] in Achievers(force, k)
  {
    var p := force[..|force| - 1];
    if i < |force| - 1 {
      assert p[i] == force[i];
      AchieversComplete(p, k, i);
    }
  }

  /**
   * `tallyKills` has folded the first `i` soldiers of `force` into the running
   * totals: from (`hits0`, `kills0`, `high0`, `top0`) to (`hits`, `kills`, `high`, `top`).
   */
  ghost predicate Tallied(force: seq<Soldier>, i: nat, hits0: int, kills0: int, high0: int, top0: seq<Soldier>,
                          hits: int, kills: int, high: int, top: seq<Soldier>)
    reads force
  {
    && i <= |force|
    && hits == hits0 + SumHits(force[..i])
    && kills == kills0 + SumKills(force[..i])
    && high == MaxKills(force[..i], high0)
    && top == (if high > high0 then [] else top0) + Achievers(force[..i], high)
  }

  /** Folding in soldier `i` the way `tallyKills` does keeps the totals those of the prefix. */
  lemma TallyStep(force: seq<Soldier>, i: nat, hits0: int, kills0: int, high0: int, top0: seq<Soldier>,
                  hits: int, kills: int, high: int, top: seq<Soldier>)
    requires i < |force| && Tallied(force, i, hits0, kills0, high0, top0, hits, kills, high, top)
    ensures var s := force[i];
      Tallied(force, i + 1, hits0, kills0, high0, top0,
              hits + s.hits, kills + Kills(s),
              if Kills(s) > high then Kills(s) else high,
              if Kills(s) > high then [s] else if Kills(s) == high then top + [s] else top)
  {
    var s := force[i];
    var p := force[..i];
    assert force[..i + 1][..i] == p;
    assert force[..i + 1][i] == s;
    var next := if Kills(s) > high then Kills(s) else high;
    if Kills(s) > high {
      AchieversAbove(p, next, high0);
      assert high0 <= high;
    }
  }

  /** `tallyKills` over one force, threading the running totals through. */
  method TallyKills(force: seq<Soldier>, totalHits: int, totalKills: int, highest: int, topKillers: seq<Soldier>)
    returns (totalHits': int, totalKills': int, highest': int, topKillers': seq<Soldier>)
    ensures totalHits' == totalHits + SumHits(force)
    ensures totalKills' == totalKills + SumKills(force)
    ensures highest' == MaxKills(force, highest)
    ensures topKillers' == (if highest' > highest then [] else topKillers) + Achievers(force, highest')
  {
    totalHits', totalKills', highest', topKillers' := totalHits, totalKills, highest, topKillers;
    var i := 0;
    while i < |force|
      invariant Tallied(force, i, totalHits, totalKills, highest, topKillers, totalHits', totalKills', highest', topKillers')
    {
      var soldier := force[i];
      var killCount := |soldier.enemiesKilled|;
      TallyStep(force, i, totalHits, totalKills, highest, topKillers, totalHits', totalKills', highest', topKillers');
      totalHits' := totalHits' + soldier.hits;
      totalKills' := totalKills' + killCount;
      if killCount > highest' {
        highest' := killCount;
        topKillers' := [soldier];
      } else if killCount == highest' {
        topKillers' := topKillers' + [soldier];
      }
      i := i + 1;
    }
    assert force[..i] == force;
  }

  lemma {:induction false} SumHitsAppend(a: seq<Soldier>, b: seq<Soldier>)
    ensures SumHits(a + b) == SumHits(a) + SumHits(b)
    decreases |b|
  {
    if b != [] {
      var b' := b[..|b| - 1];
      assert (a + b)[..|a + b| - 1] == a + b';
      SumHitsAppend(a, b');
    } else {
      assert a + b == a;
    }
  }

  lemma {:induction false} SumKillsAppend(a: seq<Soldier>, b: seq<Soldier>)
    ensures SumKills(a + b) == SumKills(a) + SumKills(b)
    decreases |b|
  {
    if b != [] {
      var b' := b[..|b| - 1];
      assert (a + b)[..|a + b| - 1] == a + b';
      SumKillsAppend(a, b');
    } else {
      assert a + b == a;
    }
  }

  /** Taking the maximum over two rosters in turn is the maximum over both. */
  lemma {:induction false} MaxKillsAppend(a: seq<Soldier>, b: seq<Soldier>, floor: int)
    ensures MaxKills(a + b, floor) == MaxKills(b, MaxKills(a, floor))
    decreases |b|
  {
    if b != [] {
      var b' := b[..|b| - 1];
      assert (a + b)[..|a + b| - 1] == a + b';
      MaxKillsAppend(a, b', floor);
    } else {
      assert a + b == a;
    }
  }

  lemma {:induction false} AchieversAppend(a: seq<Soldier>, b: seq<Soldier>, k: int)
    ensures Achievers(a + b, k) == Achievers(a, k) + Achievers(b, k)
    decreases |b|
  {
    if b != [] {
      var b' := b[..|b| - 1];
      assert (a + b)[..|a + b| - 1] == a + b';
      AchieversAppend(a, b', k);
    } else {
      assert a + b == a;
    }
  }

  /** The statistics `postProcessing` reports. */
  datatype Stats = Stats(
    marineHits: int, bugHits: int,
    marineKills: int, bugKills: int,
    highestKillCount: int, topKillers: seq<Soldier>,
    verdict: HitVerdict)

  /**
   * The top killers are exactly the soldiers whose kill count is the maximum
   * (floored at 0), and no soldier exceeds it.
   */
  lemma TopKillersExact(all: seq<Soldier>)
    ensures forall x :: x in all ==> Kills(x) <= MaxKills(all, 0)
    ensures forall x :: x in Achievers(all, MaxKills(all, 0)) <==> x in all && Kills(x) == MaxKills(all, 0)
  {
    var h := MaxKills(all, 0);
    MaxKillsBounds(all, 0);
    AchieversSound(all, h);
    forall x | x in all
      ensures Kills(x) <= h
      ensures Kills(x) == h ==> x in Achievers(all, h)
    {
      var i :| 0 <= i < |all| && all[i] == x;
      if Kills(x) == h {
        AchieversComplete(all, h, i);
      }
    }
  }

  /**
   * `postProcessing`: tally the Marines then the Bugs, sharing the running
   * maximum and top-killer list, then compare the hit totals.
   */
  method PostProcessing(marines: seq<Soldier>, bugs: seq<Soldier>) returns (s: Stats)
    ensures s.marineHits == SumHits(marines) && s.bugHits == SumHits(bugs)
    ensures s.marineKills == SumKills(marines) && s.bugKills == SumKills(bugs)
    ensures s.highestKillCount == MaxKills(marines + bugs, 0)
    ensures s.topKillers == Achievers(marines + bugs, s.highestKillCount)
    ensures s.verdict == CompareHits(s.marineHits, s.bugHits)
  {
    var mh, mk, h1, top1 := TallyKills(marines, 0, 0, 0, []);
    var bh, bk, h2, top2 := TallyKills(bugs, 0, 0, h1, top1);
    MaxKillsAppend(marines, bugs, 0);
    assert top1 == Achievers(marines, h1);
    assert top2 == Achievers(marines + bugs, h2) by {
      AchieversAppend(marines, bugs, h2);
      if h2 > h1 {
        AchieversAbove(marines, h2, 0);
        assert top2 == Achievers(bugs, h2);
      } else {
        assert h2 == h1;
      }
    }
    s := Stats(mh, bh, mk, bk, h2, top2, CompareHits(mh, bh));
  }
}
