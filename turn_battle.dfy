/**
 * soldier_w_turns.cpp: sequential turn-based combat.  The Marines' and the
 * Bugs' volleys (`marineAttack`, `bugAttack`), the per-iteration game-over
 * check and turn toggle of `gameLoop`, its hit totals and the accuracy
 * comparison of `postProcessing`.  The soldiers are the shared `Soldier`
 * class; the random target index and roll of each attack are parameters.
 */
module TurnBattle {
  import opened Rules
  import opened Combatant

  function Opponent(k: Kind): Kind
  {
    match k
    case Marine => Bug
    case Bug => Marine
  }

  /** The hit counters of a roster, in roster order. */
  function HitCounts(force: seq<Soldier>): (r: seq<int>)
    reads force
    ensures |r| == |force|
  {
    if force == [] then [] else HitCounts(force[..|force| - 1]) + [force[|force| - 1].hits]
  }

  /** `HitCounts` lists each soldier's counter at its index. */
  lemma {:induction false} HitCountsAt(force: seq<Soldier>)
    ensures forall i :: 0 <= i < |force| ==> HitCounts(force)[i] == force[i].hits
  {
    if force != [] {
      HitCountsAt(force[..|force| - 1]);
    }
  }

  /**
   * The entries the first `n` attacks of a volley push onto the hits vector:
   * for each living attacker, in roster order, its counter after its attack.
   */
  function Logged(ak: Kind, own: seq<Vitals>, hits: seq<int>, rolls: seq<int>, n: nat): seq<int>
    requires n <= |own| && n <= |hits| && n <= |rolls|
  {
    if n == 0 then []
    else
      var k := n - 1;
      Logged(ak, own, hits, rolls, k) + (if own[k].alive then [hits[k] + (if Hits(ak, rolls[k]) then 1 else 0)] else [])
  }

  /** Number of living soldiers among the first `n`. */
  function CountLiving(own: seq<Vitals>, n: nat): nat
    requires n <= |own|
  {
    if n == 0 then 0 else CountLiving(own, n - 1) + (if own[n - 1].alive then 1 else 0)
  }

  /**
   * A volley pushes one entry per living attacker, each entry is the attacker's
   * old counter or one more, and the pushed entries sum to at least the old
   * counters of the living attackers.
   */
  lemma {:induction false} LoggedShape(ak: Kind, own: seq<Vitals>, hits: seq<int>, rolls: seq<int>, n: nat)
    requires n <= |own| && n <= |hits| && n <= |rolls|
    ensures |Logged(ak, own, hits, rolls, n)| == CountLiving(own, n)
    ensures Sum(Logged(ak, own, hits, rolls, n)) >= LivingSum(own, hits, n)
  {
    if n > 0 {
      var k := n - 1;
      var prev := Logged(ak, own, hits, rolls, k);
      LoggedShape(ak, own, hits, rolls, k);
      var tail := if own[k].alive then [hits[k] + (if Hits(ak, rolls[k]) then 1 else 0)] else [];
      SumAppend(prev, tail);
    }
  }

  /** Sum of the counters whose flag is set, among the first `n`. */
  function LivingSum(own: seq<Vitals>, hits: seq<int>, n: nat): int
    requires n <= |own| && n <= |hits|
  {
    if n == 0 then 0 else LivingSum(own, hits, n - 1) + (if own[n - 1].alive then hits[n - 1] else 0)
  }

  /** Sum of a hits vector (`std::accumulate` from 0). */
  function Sum(xs: seq<int>): int
  {
    if xs == [] then 0 else Sum(xs[..|xs| - 1]) + xs[|xs| - 1]
  }

  /** `Sum` distributes over concatenation. */
  lemma {:induction false} SumAppend(xs: seq<int>, ys: seq<int>)
    ensures Sum(xs + ys) == Sum(xs) + Sum(ys)
    decreases |ys|
  {
    if ys != [] {
      var n := |ys| - 1;
      assert (xs + ys)[..|xs + ys| - 1] == xs + ys[..n];
      assert (xs + ys)[|xs + ys| - 1] == ys[n];
      SumAppend(xs, ys[..n]);
    } else {
      assert xs + ys == xs;
    }
  }

  /** Sum of the hit counters of the living soldiers of a roster. */
  function LivingHits(force: seq<Soldier>): int
    reads force
  {
    if force == [] then 0
    else
      var last := force[|force| - 1];
      LivingHits(force[..|force| - 1]) + (if last.alive then last.hits else 0)
  }

  /**
   * The defending roster's states after the first `n` attacks of a volley:
   * each living attacker `k`, in roster order, strikes defender `targets[k]`.
   */
  function Fire(ak: Kind, foes: seq<Vitals>, own: seq<Vitals>, targets: seq<nat>, rolls: seq<int>, n: nat): (r: seq<Vitals>)
    requires n <= |own| && n <= |targets| && n <= |rolls|
    requires forall k :: 0 <= k < n ==> targets[k] < |foes|
    ensures |r| == |foes|
  {
    if n == 0 then foes
    else
      var u := Fire(ak, foes, own, targets, rolls, n - 1);
      if own[n - 1].alive then u[targets[n - 1] := Strike(ak, Opponent(ak), u[targets[n - 1]], rolls[n - 1])] else u
  }

  /** A volley never raises the number of living defenders. */
  lemma {:induction false} FireCount(ak: Kind, foes: seq<Vitals>, own: seq<Vitals>, targets: seq<nat>, rolls: seq<int>, n: nat)
    requires n <= |own| && n <= |targets| && n <= |rolls|
    requires forall k :: 0 <= k < n ==> targets[k] < |foes|
    ensures CountAlive(Fire(ak, foes, own, targets, rolls, n)) <= CountAlive(foes)
  {
    if n > 0 {
      var u := Fire(ak, foes, own, targets, rolls, n - 1);
      FireCount(ak, foes, own, targets, rolls, n - 1);
      if own[n - 1].alive {
        CountAliveUpdate(u, targets[n - 1], Strike(ak, Opponent(ak), u[targets[n - 1]], rolls[n - 1]));
      }
    }
  }

  /** One more attack of a volley is one more strike on its target, when the attacker lives. */
  lemma FireStep(ak: Kind, foes: seq<Vitals>, own: seq<Vitals>, targets: seq<nat>, rolls: seq<int>, n: nat)
    requires n < |own| && n < |targets| && n < |rolls|
    requires forall k :: 0 <= k <= n ==> targets[k] < |foes|
    ensures Fire(ak, foes, own, targets, rolls, n + 1) ==
      var u := Fire(ak, foes, own, targets, rolls, n);
      if own[n].alive then u[targets[n] := Strike(ak, Opponent(ak), u[targets[n]], rolls[n])] else u
  {
  }

  /**
   * Through a volley no defender comes back to life or regrows its carapace,
   * and a defender that no living attacker chose is left as it was.
   */
  lemma {:induction false} FireEffects(ak: Kind, foes: seq<Vitals>, own: seq<Vitals>, targets: seq<nat>, rolls: seq<int>, n: nat, j: nat)
    requires n <= |own| && n <= |targets| && n <= |rolls|
    requires forall k :: 0 <= k < n ==> targets[k] < |foes|
    requires j < |foes|
    ensures Fire(ak, foes, own, targets, rolls, n)[j].alive ==> foes[j].alive
    ensures !foes[j].carapace ==> !Fire(ak, foes, own, targets, rolls, n)[j].carapace
    ensures (forall k :: 0 <= k < n && own[k].alive ==> targets[k] != j) ==> Fire(ak, foes, own, targets, rolls, n)[j] == foes[j]
  {
    if n > 0 {
      FireEffects(ak, foes, own, targets, rolls, n - 1, j);
    }
  }

  /** Soldiers of a roster are pairwise distinct objects (each `unique_ptr` owns its own). */
  predicate Distinct(force: seq<Soldier>)
  {
    forall a, b :: 0 <= a < b < |force| ==> force[a] != force[b]
  }

  /** Every soldier of the roster is of kind `k`. */
  predicate AllOfKind(force: seq<Soldier>, k: Kind)
  {
    forall i :: 0 <= i < |force| ==> force[i].kind == k
  }

  /** The volleys' common precondition: rosters of the two kinds, one target index and one roll per attacker. */
  predicate Volleyable(ak: Kind, attackers: seq<Soldier>, defenders: seq<Soldier>, targets: seq<nat>, rolls: seq<int>)
  {
    && |targets| == |attackers| && |rolls| == |attackers|
    && (forall k :: 0 <= k < |attackers| ==> targets[k] < |defenders| && IsRoll(rolls[k]))
    && AllOfKind(attackers, ak) && AllOfKind(defenders, Opponent(ak))
    && Distinct(attackers) && Distinct(defenders)
  }

  /**
   * One attack of a volley: `attackers[i]` strikes `defenders[t]`; no other
   * soldier of either roster changes.
   */
  method Engage(ak: Kind, attackers: seq<Soldier>, i: nat, defenders: seq<Soldier>, t: nat, roll: int)
    requires i < |attackers| && t < |defenders| && IsRoll(roll)
    requires AllOfKind(attackers, ak) && AllOfKind(defenders, Opponent(ak))
    requires Distinct(attackers) && Distinct(defenders)
    modifies attackers[i], defenders[t]
    ensures forall k :: 0 <= k < |attackers| ==>
      && attackers[k].State() == old(attackers[k].State())
      && attackers[k].hits == old(attackers[k].hits) + (if k == i && Hits(ak, roll) then 1 else 0)
    ensures forall j :: 0 <= j < |defenders| ==>
      && defenders[j].State() == (if j == t then Strike(ak, Opponent(ak), old(defenders[j].State()), roll) else old(defenders[j].State()))
      && defenders[j].hits == old(defenders[j].hits)
  {
    var attacker := attackers[i];
    var target := defenders[t];
    assert forall j :: 0 <= j < |defenders| && j != t ==> defenders[j] != target && defenders[j] != attacker;
    assert forall k :: 0 <= k < |attackers| && k != i ==> attackers[k] != attacker && attackers[k] != target;
    attacker.Attack(target, roll);
  }

  /** The two rosters as they were when a volley began. */
  datatype Muster = Muster(own: seq<Vitals>, hits: seq<int>, foes: seq<Vitals>, foeHits: seq<int>)

  /**
   * Where a volley stands after its first `i` attacks, given the rosters `m`
   * it started from: attackers keep their state and the first `i` living ones
   * have counted their hit; the vector holds `log0` and the first `i` pushes;
   * the defenders hold `foes`, the first `i` strikes applied to `m.foes`.
   */
  ghost predicate Progress(ak: Kind, attackers: seq<Soldier>, defenders: seq<Soldier>, targets: seq<nat>, rolls: seq<int>,
                           m: Muster, log0: seq<int>, i: nat, log: seq<int>, foes: seq<Vitals>)
    reads attackers, defenders
  {
    && Volleyable(ak, attackers, defenders, targets, rolls)
    && |m.own| == |m.hits| == |attackers| && |m.foes| == |m.foeHits| == |defenders|
    && i <= |attackers|
    && (forall k :: 0 <= k < |attackers| ==>
          && attackers[k].State() == m.own[k]
          && attackers[k].hits == m.hits[k] + (if k < i && m.own[k].alive && Hits(ak, rolls[k]) then 1 else 0))
    && log == log0 + Logged(ak, m.own, m.hits, rolls, i)
    && foes == Fire(ak, m.foes, m.own, targets, rolls, i)
    && (forall j :: 0 <= j < |defenders| ==> defenders[j].State() == foes[j] && defenders[j].hits == m.foeHits[j])
  }

  /** The rosters as they stand now. */
  function Mustered(attackers: seq<Soldier>, defenders: seq<Soldier>): Muster
    reads attackers, defenders
  {
    Muster(States(attackers), HitCounts(attackers), States(defenders), HitCounts(defenders))
  }

  /** Before its first attack a volley is at its start, and `Mustered` records each soldier's state and counter. */
  lemma StartProgress(ak: Kind, attackers: seq<Soldier>, defenders: seq<Soldier>, targets: seq<nat>, rolls: seq<int>, log: seq<int>)
    requires Volleyable(ak, attackers, defenders, targets, rolls)
    ensures Progress(ak, attackers, defenders, targets, rolls, Mustered(attackers, defenders), log, 0, log, States(defenders))
    ensures forall k :: 0 <= k < |attackers| ==> States(attackers)[k] == attackers[k].State() && HitCounts(attackers)[k] == attackers[k].hits
    ensures forall j :: 0 <= j < |defenders| ==> HitCounts(defenders)[j] == defenders[j].hits
  {
    StatesAt(attackers);
    StatesAt(defenders);
    HitCountsAt(attackers);
    HitCountsAt(defenders);
  }

  /**
   * One iteration of the volley loop: if attacker `i` is alive it attacks its
   * target and its counter is pushed.
   */
  method VolleyStep(ak: Kind, attackers: seq<Soldier>, defenders: seq<Soldier>, targets: seq<nat>, rolls: seq<int>,
                    ghost m: Muster, ghost log0: seq<int>, i: nat, log: seq<int>, ghost foes: seq<Vitals>)
    returns (log': seq<int>, ghost foes': seq<Vitals>)
    requires i < |attackers|
    requires Progress(ak, attackers, defenders, targets, rolls, m, log0, i, log, foes)
    modifies attackers, defenders
    ensures Progress(ak, attackers, defenders, targets, rolls, m, log0, i + 1, log', foes')
  {
    var attacker := attackers[i];
    var t := targets[i];
    FireStep(ak, m.foes, m.own, targets, rolls, i);
    log', foes' := log, foes;
    if attacker.alive {
      Engage(ak, attackers, i, defenders, t, rolls[i]);
      foes' := foes[t := Strike(ak, Opponent(ak), foes[t], rolls[i])];
      log' := log + [attacker.hits];
    }
  }

  /**
   * `marineAttack` / `bugAttack`: every living attacker, in roster order,
   * attacks the defender `targets[k]` with roll `rolls[k]` and pushes its
   * counter onto the hits vector; dead attackers are skipped.
   */
  method Volley(ak: Kind, attackers: seq<Soldier>, defenders: seq<Soldier>, log: seq<int>, targets: seq<nat>, rolls: seq<int>)
    returns (log': seq<int>)
    requires Volleyable(ak, attackers, defenders, targets, rolls)
    modifies attackers, defenders
    ensures forall k :: 0 <= k < |attackers| ==>
      && attackers[k].State() == old(States(attackers))[k]
      && attackers[k].hits == old(HitCounts(attackers))[k] + (if old(States(attackers))[k].alive && Hits(ak, rolls[k]) then 1 else 0)
    ensures log' == log + Logged(ak, old(States(attackers)), old(HitCounts(attackers)), rolls, |attackers|)
    ensures forall j :: 0 <= j < |defenders| ==>
      && defenders[j].State() == Fire(ak, old(States(defenders)), old(States(attackers)), targets, rolls, |attackers|)[j]
      && defenders[j].hits == old(HitCounts(defenders))[j]
  {
    ghost var m := Mustered(attackers, defenders);
    StartProgress(ak, attackers, defenders, targets, rolls, log);
    ghost var foes := m.foes;
    log' := log;
    var i := 0;
    while i < |attackers|
      invariant Progress(ak, attackers, defenders, targets, rolls, m, log, i, log', foes)
    {
      log', foes := VolleyStep(ak, attackers, defenders, targets, rolls, m, log, i, log', foes);
      i := i + 1;
    }
  }

  // ----- the game loop -----

  /** `std::none_of(..., alive)`: whether no soldier of the roster is alive. */
  method NoneAlive(force: seq<Soldier>) returns (none: bool)
    ensures none <==> forall k :: 0 <= k < |force| ==> !force[k].alive
    ensures none <==> CountAlive(States(force)) == 0
  {
    NoneAliveCount(force);
    var i := 0;
    while i < |force|
      invariant 0 <= i <= |force|
      invariant forall k :: 0 <= k < i ==> !force[k].alive
    {
      if force[i].alive {
        return false;
      }
      i := i + 1;
    }
    return true;
  }

  /** `std::none_of` over a roster is the same as a living count of zero. */
  lemma NoneAliveCount(force: seq<Soldier>)
    ensures (forall k :: 0 <= k < |force| ==> !force[k].alive) <==> CountAlive(States(force)) == 0
  {
    StatesAt(force);
    CountAlivePositive(States(force));
    if CountAlive(States(force)) > 0 {
      var i :| 0 <= i < |States(force)| && States(force)[i].alive;
      assert force[i].alive;
    }
  }

  /** What the end-of-iteration check of `gameLoop` announces. */
  datatype Verdict = Ongoing | MarinesVictorious | BugsTriumph

  /**
   * The game-over check: "Marines are victorious" when no Bug is alive,
   * otherwise "Bugs triumph" when no Marine is alive, otherwise the fight goes on.
   */
  method CheckGameOver(marines: seq<Soldier>, bugs: seq<Soldier>) returns (verdict: Verdict)
    ensures verdict == MarinesVictorious <==> forall k :: 0 <= k < |bugs| ==> !bugs[k].alive
    ensures verdict == BugsTriumph <==>
      (exists k :: 0 <= k < |bugs| && bugs[k].alive) && forall k :: 0 <= k < |marines| ==> !marines[k].alive
    ensures verdict == Ongoing <==>
      (exists k :: 0 <= k < |bugs| && bugs[k].alive) && exists k :: 0 <= k < |marines| && marines[k].alive
    ensures verdict == Judge(Snapshot(marines, bugs))
  {
    var noBugs := NoneAlive(bugs);
    if noBugs {
      verdict := MarinesVictorious;
    } else {
      var noMarines := NoneAlive(marines);
      verdict := if noMarines then BugsTriumph else Ongoing;
    }
  }

  /** `marine_turn = (first_turn == 'm')` after an answer other than 'm' or 'b' was replaced by 'm'. */
  function MarinesFirst(answer: char): (first: bool)
    ensures first <==> answer != 'b'
  {
    var choice := if answer != 'm' && answer != 'b' then 'm' else answer;
    choice == 'm'
  }

  /** Whose turn it is and the turn counter. */
  datatype Clock = Clock(marineTurn: bool, turnNumber: int)

  /** The end-of-iteration toggle: the turn passes, and a new turn begins when it comes back to the Marines. */
  function Toggle(c: Clock): (t: Clock)
    ensures t.marineTurn != c.marineTurn
    ensures t.turnNumber - c.turnNumber == (if c.marineTurn then 0 else 1)
  {
    var marineTurn := !c.marineTurn;
    Clock(marineTurn, if marineTurn then c.turnNumber + 1 else c.turnNumber)
  }

  /** The clock after `n` iterations. */
  function Ticks(c: Clock, n: nat): Clock
  {
    if n == 0 then c else Toggle(Ticks(c, n - 1))
  }

  /**
   * From the start of `gameLoop` (turn 1, the side chosen to go first), after
   * `n` iterations the side to move alternates with the parity of `n`, and the
   * turn counter has gone up once for every return to the Marines.
   */
  lemma {:induction false} TicksClosedForm(marinesFirst: bool, n: nat)
    ensures Ticks(Clock(marinesFirst, 1), n).marineTurn == (marinesFirst == (n % 2 == 0))
    ensures Ticks(Clock(marinesFirst, 1), n).turnNumber == 1 + (if marinesFirst then n / 2 else (n + 1) / 2)
  {
    if n > 0 {
      TicksClosedForm(marinesFirst, n - 1);
    }
  }

  /**
   * The totals at the end of `gameLoop`: the counters of the living soldiers,
   * then everything accumulated in the hits vector.
   */
  method TallyHits(force: seq<Soldier>, log: seq<int>) returns (total: int)
    ensures total == LivingHits(force) + Sum(log)
  {
    total := 0;
    var i := 0;
    while i < |force|
      invariant 0 <= i <= |force|
      invariant total == LivingHits(force[..i])
    {
      assert force[..i + 1][..i] == force[..i];
      if force[i].alive {
        total := total + force[i].hits;
      }
      i := i + 1;
    }
    assert force[..i] == force;
    var j := 0;
    while j < |log|
      invariant 0 <= j <= |log|
      invariant total == LivingHits(force) + Sum(log[..j])
    {
      assert log[..j + 1][..j] == log[..j];
      total := total + log[j];
      j := j + 1;
    }
    assert log[..j] == log;
  }

  /** The random draws of one iteration: target indices and rolls for each Marine and each Bug. */
  datatype Round = Round(marineTargets: seq<nat>, marineRolls: seq<int>, bugTargets: seq<nat>, bugRolls: seq<int>)

  /** Draws that fit the rosters: one per soldier, targets in range, rolls in 1..10. */
  predicate Fits(r: Round, marineCount: nat, bugCount: nat)
  {
    && |r.marineTargets| == |r.marineRolls| == marineCount
    && |r.bugTargets| == |r.bugRolls| == bugCount
    && (forall k :: 0 <= k < marineCount ==> r.marineTargets[k] < bugCount && IsRoll(r.marineRolls[k]))
    && (forall k :: 0 <= k < bugCount ==> r.bugTargets[k] < marineCount && IsRoll(r.bugRolls[k]))
  }

  /** Both rosters as values: each soldier's combat state and hit counter, Marines then Bugs. */
  datatype Board = Board(marines: seq<Vitals>, marineHits: seq<int>, bugs: seq<Vitals>, bugHits: seq<int>)

  /** The rosters as they stand now. */
  function Snapshot(marines: seq<Soldier>, bugs: seq<Soldier>): Board
    reads marines, bugs
  {
    Board(States(marines), HitCounts(marines), States(bugs), HitCounts(bugs))
  }

  /** One state and one counter per soldier, `m` Marines and `b` Bugs. */
  predicate Sized(board: Board, m: nat, b: nat)
  {
    |board.marines| == |board.marineHits| == m && |board.bugs| == |board.bugHits| == b
  }

  /** Each attacker's counter after a volley: one more for every living attacker whose roll hits. */
  function Counted(ak: Kind, own: seq<Vitals>, hits: seq<int>, rolls: seq<int>): (r: seq<int>)
    requires |own| == |hits| == |rolls|
    ensures |r| == |hits|
    ensures forall k :: 0 <= k < |r| ==> r[k] == hits[k] + (if own[k].alive && Hits(ak, rolls[k]) then 1 else 0)
  {
    seq(|hits|, k requires 0 <= k < |hits| => hits[k] + (if own[k].alive && Hits(ak, rolls[k]) then 1 else 0))
  }

  /**
   * A volley on values: the attackers keep their states and count their hits,
   * the defenders take the strikes and keep their counters.
   */
  function Volleyed(ak: Kind, m: Muster, targets: seq<nat>, rolls: seq<int>): (m': Muster)
    requires |m.own| == |m.hits| == |targets| == |rolls| && |m.foes| == |m.foeHits|
    requires forall k :: 0 <= k < |targets| ==> targets[k] < |m.foes|
    ensures |m'.own| == |m'.hits| == |m.own| && |m'.foes| == |m'.foeHits| == |m.foes|
  {
    Muster(m.own, Counted(ak, m.own, m.hits, rolls), Fire(ak, m.foes, m.own, targets, rolls, |m.own|), m.foeHits)
  }

  /**
   * One turn on values: the side to move fires with its draws from `r`; its
   * own states do not change, and the other side's counters do not change.
   */
  function Turn(board: Board, marineTurn: bool, r: Round): (next: Board)
    requires Sized(board, |board.marines|, |board.bugs|) && Fits(r, |board.marines|, |board.bugs|)
    ensures Sized(next, |board.marines|, |board.bugs|)
    ensures marineTurn ==> next.marines == board.marines && next.bugHits == board.bugHits
    ensures !marineTurn ==> next.bugs == board.bugs && next.marineHits == board.marineHits
  {
    if marineTurn then
      var m := Volleyed(Marine, Muster(board.marines, board.marineHits, board.bugs, board.bugHits), r.marineTargets, r.marineRolls);
      Board(m.own, m.hits, m.foes, m.foeHits)
    else
      var m := Volleyed(Bug, Muster(board.bugs, board.bugHits, board.marines, board.marineHits), r.bugTargets, r.bugRolls);
      Board(m.foes, m.foeHits, m.own, m.hits)
  }

  /** The entries one turn pushes onto the Marines' hits vector. */
  function MarineEntries(board: Board, marineTurn: bool, r: Round): seq<int>
    requires Sized(board, |board.marines|, |board.bugs|) && Fits(r, |board.marines|, |board.bugs|)
  {
    if marineTurn then Logged(Marine, board.marines, board.marineHits, r.marineRolls, |board.marines|) else []
  }

  /** The entries one turn pushes onto the Bugs' hits vector. */
  function BugEntries(board: Board, marineTurn: bool, r: Round): seq<int>
    requires Sized(board, |board.marines|, |board.bugs|) && Fits(r, |board.marines|, |board.bugs|)
  {
    if marineTurn then [] else Logged(Bug, board.bugs, board.bugHits, r.bugRolls, |board.bugs|)
  }

  /** The game-over check on values. */
  function Judge(board: Board): Verdict
  {
    if CountAlive(board.bugs) == 0 then MarinesVictorious
    else if CountAlive(board.marines) == 0 then BugsTriumph
    else Ongoing
  }

  /** Where a game ends: the rosters, the iterations played, the verdict and both hits vectors. */
  datatype Ending = Ending(board: Board, rounds: nat, verdict: Verdict, marineLog: seq<int>, bugLog: seq<int>)

  /** An ending reached after `n` earlier iterations that pushed `marineLog` and `bugLog`. */
  function Resume(marineLog: seq<int>, bugLog: seq<int>, n: nat, e: Ending): Ending
  {
    e.(rounds := n + e.rounds, marineLog := marineLog + e.marineLog, bugLog := bugLog + e.bugLog)
  }

  /** Draws for every iteration of a script that fit rosters of `m` Marines and `b` Bugs. */
  predicate Scripted(script: seq<Round>, m: nat, b: nat)
  {
    forall n :: 0 <= n < |script| ==> Fits(script[n], m, b)
  }

  /**
   * The loop of `gameLoop` on values, from iteration `from` on, with `board`
   * on the field and `marineTurn` to move: each iteration plays one turn with
   * its draws from `script` and runs the game-over check; the game stops at
   * the first verdict other than `Ongoing`, or when the script runs out.
   */
  function Game(board: Board, marineTurn: bool, script: seq<Round>, from: nat): (e: Ending)
    requires from <= |script|
    requires Sized(board, |board.marines|, |board.bugs|) && Scripted(script, |board.marines|, |board.bugs|)
    ensures Sized(e.board, |board.marines|, |board.bugs|)
    ensures from + e.rounds <= |script|
    ensures e.verdict == Ongoing ==> from + e.rounds == |script|
    ensures e.rounds == 0 ==> e.board == board
    ensures e.verdict != Ongoing ==> e.verdict == Judge(e.board)
    decreases |script| - from
  {
    if from == |script| then Ending(board, 0, Ongoing, [], [])
    else
      var r := script[from];
      var next := Turn(board, marineTurn, r);
      var ml, bl := MarineEntries(board, marineTurn, r), BugEntries(board, marineTurn, r);
      if Judge(next) != Ongoing then Ending(next, 1, Judge(next), ml, bl)
      else Resume(ml, bl, 1, Game(next, !marineTurn, script, from + 1))
  }

  /** Unfolding `Game` at iteration `n`, after the earlier iterations pushed `ml` and `bl`. */
  lemma GameStep(board: Board, marineTurn: bool, script: seq<Round>, n: nat, ml: seq<int>, bl: seq<int>)
    requires n < |script|
    requires Sized(board, |board.marines|, |board.bugs|) && Scripted(script, |board.marines|, |board.bugs|)
    ensures
      var next := Turn(board, marineTurn, script[n]);
      var ml', bl' := ml + MarineEntries(board, marineTurn, script[n]), bl + BugEntries(board, marineTurn, script[n]);
      Resume(ml, bl, n, Game(board, marineTurn, script, n)) ==
        if Judge(next) != Ongoing then Ending(next, n + 1, Judge(next), ml', bl')
        else Resume(ml', bl', n + 1, Game(next, !marineTurn, script, n + 1))
  {
    var next := Turn(board, marineTurn, script[n]);
    if Judge(next) == Ongoing {
      var e := Game(next, !marineTurn, script, n + 1);
      var l1, l2 := MarineEntries(board, marineTurn, script[n]), BugEntries(board, marineTurn, script[n]);
      assert ml + (l1 + e.marineLog) == ml + l1 + e.marineLog;
      assert bl + (l2 + e.bugLog) == bl + l2 + e.bugLog;
    }
  }

  /**
   * A game that is over names a side whose roster is wiped out, and a game
   * still going on after at least one iteration has living soldiers on both sides.
   */
  lemma {:induction false} GameVerdict(board: Board, marineTurn: bool, script: seq<Round>, from: nat)
    requires from <= |script|
    requires Sized(board, |board.marines|, |board.bugs|) && Scripted(script, |board.marines|, |board.bugs|)
    ensures var e := Game(board, marineTurn, script, from);
      && (e.verdict == MarinesVictorious <==> e.rounds > 0 && CountAlive(e.board.bugs) == 0)
      && (e.verdict == BugsTriumph <==> e.rounds > 0 && CountAlive(e.board.bugs) > 0 && CountAlive(e.board.marines) == 0)
    decreases |script| - from
  {
    if from < |script| {
      var next := Turn(board, marineTurn, script[from]);
      if Judge(next) == Ongoing {
        GameVerdict(next, !marineTurn, script, from + 1);
      }
    }
  }

  /**
   * The body of `gameLoop`'s loop before the toggle: the side whose turn it is
   * fires its volley with the draws `r`, then the game-over check runs.
   */
  method PlayTurn(marines: seq<Soldier>, bugs: seq<Soldier>, marineTurn: bool, r: Round, marineHits: seq<int>, bugHits: seq<int>)
    returns (marineHits': seq<int>, bugHits': seq<int>, verdict: Verdict)
    requires AllOfKind(marines, Marine) && AllOfKind(bugs, Bug) && Distinct(marines) && Distinct(bugs)
    requires Fits(r, |marines|, |bugs|)
    modifies marines, bugs
    ensures Snapshot(marines, bugs) == Turn(old(Snapshot(marines, bugs)), marineTurn, r)
    ensures marineHits' == marineHits + MarineEntries(old(Snapshot(marines, bugs)), marineTurn, r)
    ensures bugHits' == bugHits + BugEntries(old(Snapshot(marines, bugs)), marineTurn, r)
    ensures verdict == Judge(Snapshot(marines, bugs))
    ensures Decided(verdict, marines, bugs)
  {
    marineHits', bugHits' := Move(marines, bugs, marineTurn, r, marineHits, bugHits);
    verdict := CheckGameOver(marines, bugs);
  }

  /** The volley of the side to move, stated on both rosters as values. */
  method Move(marines: seq<Soldier>, bugs: seq<Soldier>, marineTurn: bool, r: Round, marineHits: seq<int>, bugHits: seq<int>)
    returns (marineHits': seq<int>, bugHits': seq<int>)
    requires AllOfKind(marines, Marine) && AllOfKind(bugs, Bug) && Distinct(marines) && Distinct(bugs)
    requires Fits(r, |marines|, |bugs|)
    modifies marines, bugs
    ensures Snapshot(marines, bugs) == Turn(old(Snapshot(marines, bugs)), marineTurn, r)
    ensures marineHits' == marineHits + MarineEntries(old(Snapshot(marines, bugs)), marineTurn, r)
    ensures bugHits' == bugHits + BugEntries(old(Snapshot(marines, bugs)), marineTurn, r)
  {
    ghost var board := Snapshot(marines, bugs);
    marineHits', bugHits' := marineHits, bugHits;
    if marineTurn {
      assert Mustered(marines, bugs) == Muster(board.marines, board.marineHits, board.bugs, board.bugHits);
      marineHits' := Advance(Marine, marines, bugs, marineHits, r.marineTargets, r.marineRolls);
    } else {
      assert Mustered(bugs, marines) == Muster(board.bugs, board.bugHits, board.marines, board.marineHits);
      bugHits' := Advance(Bug, bugs, marines, bugHits, r.bugTargets, r.bugRolls);
    }
  }

  /** A volley, stated on both rosters as values. */
  method Advance(ak: Kind, attackers: seq<Soldier>, defenders: seq<Soldier>, log: seq<int>, targets: seq<nat>, rolls: seq<int>)
    returns (log': seq<int>)
    requires Volleyable(ak, attackers, defenders, targets, rolls)
    modifies attackers, defenders
    ensures Mustered(attackers, defenders) == Volleyed(ak, old(Mustered(attackers, defenders)), targets, rolls)
    ensures log' == log + Logged(ak, old(States(attackers)), old(HitCounts(attackers)), rolls, |attackers|)
  {
    ghost var m := Mustered(attackers, defenders);
    log' := Volley(ak, attackers, defenders, log, targets, rolls);
    Settled(attackers, m.own, Counted(ak, m.own, m.hits, rolls));
    Settled(defenders, Fire(ak, m.foes, m.own, targets, rolls, |attackers|), m.foeHits);
  }

  /** A roster whose soldiers hold the states `vs` and the counters `hs`, index by index, reads back as `vs` and `hs`. */
  lemma Settled(force: seq<Soldier>, vs: seq<Vitals>, hs: seq<int>)
    requires |vs| == |hs| == |force|
    requires forall k :: 0 <= k < |force| ==> force[k].State() == vs[k] && force[k].hits == hs[k]
    ensures States(force) == vs && HitCounts(force) == hs
  {
    StatesAt(force);
    HitCountsAt(force);
  }

  /**
   * What a verdict says about the rosters: "Marines victorious" only when
   * every Bug is dead, "Bugs triumph" only when a Bug lives and every Marine
   * is dead.
   */
  ghost predicate Decided(verdict: Verdict, marines: seq<Soldier>, bugs: seq<Soldier>)
    reads marines, bugs
  {
    && (verdict == MarinesVictorious ==> forall k :: 0 <= k < |bugs| ==> !bugs[k].alive)
    && (verdict == BugsTriumph ==>
         (exists k :: 0 <= k < |bugs| && bugs[k].alive) && forall k :: 0 <= k < |marines| ==> !marines[k].alive)
  }

  /**
   * Where `gameLoop` stands after `n` iterations that left `board` on the
   * field, pushed `marineHits` and `bugHits` and ended with `verdict`,
   * measured against the game `ending` the whole script leads to: once the
   * game is over the ending is reached; until then the ending is what the rest
   * of the script plays from `board`.
   */
  predicate Course(ending: Ending, board: Board, marineTurn: bool, script: seq<Round>,
                   n: nat, verdict: Verdict, marineHits: seq<int>, bugHits: seq<int>)
  {
    && n <= |script|
    && Sized(board, |board.marines|, |board.bugs|)
    && Scripted(script, |board.marines|, |board.bugs|)
    && (verdict != Ongoing ==> ending == Ending(board, n, verdict, marineHits, bugHits))
    && (verdict == Ongoing ==> ending == Resume(marineHits, bugHits, n, Game(board, marineTurn, script, n)))
  }

  /**
   * The state of `gameLoop` after `n` iterations, measured against the game
   * `ending` the whole script leads to: the turn clock has ticked `n` times,
   * `gameOver` records whether a verdict fell, the verdict agrees with the
   * rosters, and the rosters and hits vectors are on course for `ending`.
   */
  ghost predicate Tracking(ending: Ending, marines: seq<Soldier>, bugs: seq<Soldier>, marinesFirst: bool, script: seq<Round>, n: nat,
                           gameOver: bool, marineTurn: bool, turnNumber: int, verdict: Verdict, marineHits: seq<int>, bugHits: seq<int>)
    reads marines, bugs
  {
    && Clock(marineTurn, turnNumber) == Ticks(Clock(marinesFirst, 1), n)
    && (gameOver <==> verdict != Ongoing)
    && Decided(verdict, marines, bugs)
    && Course(ending, Snapshot(marines, bugs), marineTurn, script, n, verdict, marineHits, bugHits)
  }

  /**
   * One iteration of `gameLoop`'s loop: the side to move fires, the game-over
   * check runs and the turn toggles, the counter going up when the turn comes
   * back to the Marines.
   */
  method Iteration(marines: seq<Soldier>, bugs: seq<Soldier>, ghost marinesFirst: bool, script: seq<Round>, n: nat,
                   marineTurn: bool, turnNumber: int, marineHits: seq<int>, bugHits: seq<int>, ghost ending: Ending)
    returns (gameOver: bool, marineTurn': bool, turnNumber': int, marineHits': seq<int>, bugHits': seq<int>, verdict: Verdict)
    requires AllOfKind(marines, Marine) && AllOfKind(bugs, Bug) && Distinct(marines) && Distinct(bugs)
    requires n < |script|
    requires Tracking(ending, marines, bugs, marinesFirst, script, n, false, marineTurn, turnNumber, Ongoing, marineHits, bugHits)
    modifies marines, bugs
    ensures Tracking(ending, marines, bugs, marinesFirst, script, n + 1, gameOver, marineTurn', turnNumber', verdict, marineHits', bugHits')
  {
    ghost var board := Snapshot(marines, bugs);
    marineHits', bugHits', verdict := PlayTurn(marines, bugs, marineTurn, script[n], marineHits, bugHits);
    CourseStep(ending, board, Snapshot(marines, bugs), marineTurn, script, n, verdict, marineHits, bugHits, marineHits', bugHits');
    gameOver := verdict != Ongoing;
    marineTurn' := !marineTurn;
    turnNumber' := if marineTurn' then turnNumber + 1 else turnNumber;
  }

  /** One more turn played and judged keeps the game on course. */
  lemma CourseStep(ending: Ending, board: Board, next: Board, marineTurn: bool, script: seq<Round>, n: nat, verdict: Verdict,
                   marineHits: seq<int>, bugHits: seq<int>, marineHits': seq<int>, bugHits': seq<int>)
    requires n < |script|
    requires Course(ending, board, marineTurn, script, n, Ongoing, marineHits, bugHits)
    requires next == Turn(board, marineTurn, script[n]) && verdict == Judge(next)
    requires marineHits' == marineHits + MarineEntries(board, marineTurn, script[n])
    requires bugHits' == bugHits + BugEntries(board, marineTurn, script[n])
    ensures Course(ending, next, !marineTurn, script, n + 1, verdict, marineHits', bugHits')
  {
    GameStep(board, marineTurn, script, n, marineHits, bugHits);
  }

  /** Before the first iteration, the ending is what the whole script plays from the rosters. */
  lemma Started(marines: seq<Soldier>, bugs: seq<Soldier>, marinesFirst: bool, script: seq<Round>)
    requires Scripted(script, |marines|, |bugs|)
    ensures Tracking(Game(Snapshot(marines, bugs), marinesFirst, script, 0), marines, bugs, marinesFirst, script, 0,
                     false, marinesFirst, 1, Ongoing, [], [])
  {
    var e := Game(Snapshot(marines, bugs), marinesFirst, script, 0);
    assert [] + e.marineLog == e.marineLog && [] + e.bugLog == e.bugLog;
  }

  /** When the game is over or the script has run out, the ending is reached and the turn counter matches it. */
  lemma Finished(ending: Ending, marines: seq<Soldier>, bugs: seq<Soldier>, marinesFirst: bool, script: seq<Round>, n: nat,
                 gameOver: bool, marineTurn: bool, turnNumber: int, verdict: Verdict, marineHits: seq<int>, bugHits: seq<int>)
    requires Tracking(ending, marines, bugs, marinesFirst, script, n, gameOver, marineTurn, turnNumber, verdict, marineHits, bugHits)
    requires gameOver || n == |script|
    ensures ending == Ending(Snapshot(marines, bugs), n, verdict, marineHits, bugHits)
    ensures turnNumber == 1 + (if marinesFirst then n / 2 else (n + 1) / 2)
    ensures Decided(verdict, marines, bugs)
  {
    if verdict == Ongoing {
      assert marineHits + [] == marineHits && bugHits + [] == bugHits;
    }
    TicksClosedForm(marinesFirst, n);
  }

  /** The end of `gameLoop`: the loop has stopped and the totals are tallied. */
  method Tally(ghost ending: Ending, marines: seq<Soldier>, bugs: seq<Soldier>, ghost marinesFirst: bool, ghost script: seq<Round>,
               ghost n: nat, ghost gameOver: bool, ghost marineTurn: bool, ghost turnNumber: int, ghost verdict: Verdict,
               marineHits: seq<int>, bugHits: seq<int>)
    returns (marineTotal: int, bugTotal: int)
    requires Tracking(ending, marines, bugs, marinesFirst, script, n, gameOver, marineTurn, turnNumber, verdict, marineHits, bugHits)
    requires gameOver || n == |script|
    ensures ending == Ending(Snapshot(marines, bugs), n, verdict, marineHits, bugHits)
    ensures turnNumber == 1 + (if marinesFirst then n / 2 else (n + 1) / 2)
    ensures Decided(verdict, marines, bugs)
    ensures marineTotal == LivingHits(marines) + Sum(marineHits)
    ensures bugTotal == LivingHits(bugs) + Sum(bugHits)
  {
    Finished(ending, marines, bugs, marinesFirst, script, n, gameOver, marineTurn, turnNumber, verdict, marineHits, bugHits);
    marineTotal := TallyHits(marines, marineHits);
    bugTotal := TallyHits(bugs, bugHits);
  }

  /**
   * `gameLoop`: while the game is not over, the side whose turn it is fires a
   * volley, the game-over check runs and the turn toggles; then the totals are
   * tallied.  `script[n]` holds the draws of iteration `n`; the loop also stops
   * when the script runs out.  The rosters, verdict and hits vectors end as
   * `Game` says; the turn counter matches the iterations played.
   */
  method GameLoop(marines: seq<Soldier>, bugs: seq<Soldier>, marinesFirst: bool, script: seq<Round>)
    returns (marineTotal: int, bugTotal: int, verdict: Verdict, turnNumber: int)
    requires AllOfKind(marines, Marine) && AllOfKind(bugs, Bug) && Distinct(marines) && Distinct(bugs)
    requires Scripted(script, |marines|, |bugs|)
    modifies marines, bugs
    ensures var e := Game(old(Snapshot(marines, bugs)), marinesFirst, script, 0);
      && Snapshot(marines, bugs) == e.board
      && verdict == e.verdict
      && turnNumber == 1 + (if marinesFirst then e.rounds / 2 else (e.rounds + 1) / 2)
      && marineTotal == LivingHits(marines) + Sum(e.marineLog)
      && bugTotal == LivingHits(bugs) + Sum(e.bugLog)
    ensures Decided(verdict, marines, bugs)
  {
    ghost var ending := Game(Snapshot(marines, bugs), marinesFirst, script, 0);
    var gameOver := false;
    var marineTurn := marinesFirst;
    turnNumber := 1;
    var marineHits: seq<int> := [];
    var bugHits: seq<int> := [];
    verdict := Ongoing;
    var n := 0;
    Started(marines, bugs, marinesFirst, script);
    while !gameOver && n < |script|
      invariant n <= |script|
      invariant Tracking(ending, marines, bugs, marinesFirst, script, n, gameOver, marineTurn, turnNumber, verdict, marineHits, bugHits)
    {
      gameOver, marineTurn, turnNumber, marineHits, bugHits, verdict :=
        Iteration(marines, bugs, marinesFirst, script, n, marineTurn, turnNumber, marineHits, bugHits, ending);
      n := n + 1;
    }
    marineTotal, bugTotal := Tally(ending, marines, bugs, marinesFirst, script, n, gameOver, marineTurn, turnNumber, verdict, marineHits, bugHits);
  }

  /** A volley between one-soldier rosters. */
  method Duel(ak: Kind, attacker: Soldier, defender: Soldier, log: seq<int>, roll: int) returns (log': seq<int>)
    requires attacker.kind == ak && defender.kind == Opponent(ak) && IsRoll(roll)
    modifies attacker, defender
    ensures attacker.State() == old(attacker.State())
    ensures attacker.hits == old(attacker.hits) + (if old(attacker.alive) && Hits(ak, roll) then 1 else 0)
    ensures log' == log + (if old(attacker.alive) then [attacker.hits] else [])
    ensures defender.State() == (if old(attacker.alive) then Strike(ak, Opponent(ak), old(defender.State()), roll) else old(defender.State()))
    ensures defender.hits == old(defender.hits)
  {
    assert States([attacker]) == [attacker.State()] && HitCounts([attacker]) == [attacker.hits] && States([defender]) == [defender.State()] by {
      assert [attacker][..0] == [] && [defender][..0] == [];
    }
    ghost var own, hits := attacker.State(), attacker.hits;
    ghost var foe := defender.State();
    assert Logged(ak, [own], [hits], [roll], 1) == if own.alive then [hits + (if Hits(ak, roll) then 1 else 0)] else [];
    assert Fire(ak, [foe], [own], [0], [roll], 1)[0] == if own.alive then Strike(ak, Opponent(ak), foe, roll) else foe;
    log' := Volley(ak, [attacker], [defender], log, [0], [roll]);
  }

  /** A turn between one Marine and one Bug: the side to move strikes the other when alive, and logs its counter. */
  lemma SoloTurn(board: Board, marineTurn: bool, r: Round)
    requires Sized(board, 1, 1) && Fits(r, 1, 1)
    ensures var m, b := board.marines[0], board.bugs[0];
      marineTurn ==> && Turn(board, marineTurn, r) ==
                       Board(board.marines, [board.marineHits[0] + (if m.alive && Hits(Marine, r.marineRolls[0]) then 1 else 0)],
                             [if m.alive then Strike(Marine, Bug, b, r.marineRolls[0]) else b], board.bugHits)
                     && MarineEntries(board, marineTurn, r) ==
                       (if m.alive then [board.marineHits[0] + (if Hits(Marine, r.marineRolls[0]) then 1 else 0)] else [])
    ensures var m, b := board.marines[0], board.bugs[0];
      !marineTurn ==> && Turn(board, marineTurn, r) ==
                        Board([if b.alive then Strike(Bug, Marine, m, r.bugRolls[0]) else m], board.marineHits,
                              board.bugs, [board.bugHits[0] + (if b.alive && Hits(Bug, r.bugRolls[0]) then 1 else 0)])
                      && BugEntries(board, marineTurn, r) ==
                        (if b.alive then [board.bugHits[0] + (if Hits(Bug, r.bugRolls[0]) then 1 else 0)] else [])
  {
    var m, b := board.marines[0], board.bugs[0];
    if marineTurn {
      assert Counted(Marine, board.marines, board.marineHits, r.marineRolls) ==
        [board.marineHits[0] + (if m.alive && Hits(Marine, r.marineRolls[0]) then 1 else 0)];
      assert Fire(Marine, board.bugs, board.marines, r.marineTargets, r.marineRolls, 1) ==
        [if m.alive then Strike(Marine, Bug, b, r.marineRolls[0]) else b];
      var tail := if m.alive then [board.marineHits[0] + (if Hits(Marine, r.marineRolls[0]) then 1 else 0)] else [];
      assert Logged(Marine, board.marines, board.marineHits, r.marineRolls, 1) == [] + tail;
    } else {
      assert Counted(Bug, board.bugs, board.bugHits, r.bugRolls) ==
        [board.bugHits[0] + (if b.alive && Hits(Bug, r.bugRolls[0]) then 1 else 0)];
      assert Fire(Bug, board.marines, board.bugs, r.bugTargets, r.bugRolls, 1) ==
        [if b.alive then Strike(Bug, Marine, m, r.bugRolls[0]) else m];
      var tail := if b.alive then [board.bugHits[0] + (if Hits(Bug, r.bugRolls[0]) then 1 else 0)] else [];
      assert Logged(Bug, board.bugs, board.bugHits, r.bugRolls, 1) == [] + tail;
    }
  }

  /** Every iteration's draws: each side aims at soldier 0; the Marine rolls 9, the Bug rolls 1. */
  const Nine := Round([0], [9], [0], [1])

  /** Draws for `n` iterations, each of them `Nine`. */
  predicate AllNines(script: seq<Round>, n: nat)
  {
    |script| == n && forall k :: 0 <= k < n ==> script[k] == Nine
  }

  /** A lone Marine in state `m` facing a lone Bug in state `b`, neither with a hit yet. */
  function Facing(m: Vitals, b: Vitals): Board
  {
    Board([m], [0], [b], [0])
  }

  /** After the Marine's first hit: the Bug is at 50 with its carapace. */
  function Grazed(m: Vitals, b: Vitals): Board
  {
    Board([m], [1], [b.(health := 50)], [0])
  }

  /** After the second hit: the carapace took the blow to 0 and gave back 50. */
  function Shelled(m: Vitals, b: Vitals): Board
  {
    Board([m], [2], [b.(health := 50, carapace := false)], [0])
  }

  /** After the third hit: the Bug is dead at 0. */
  function Felled(m: Vitals, b: Vitals): Board
  {
    Board([m], [3], [b.(health := 0, alive := false, carapace := false)], [0])
  }

  /** Five iterations of `Nine` fit one Marine and one Bug. */
  lemma NinesFit(script: seq<Round>)
    requires AllNines(script, 5)
    ensures Fits(Nine, 1, 1) && Scripted(script, 1, 1)
  {
  }

  /** A Marine's turn with the draws `Nine`: a living Marine hits the Bug, and logs its raised counter. */
  lemma MarineNine(board: Board)
    requires Sized(board, 1, 1) && board.marines[0].alive
    ensures Fits(Nine, 1, 1)
    ensures Turn(board, true, Nine) ==
      board.(marineHits := [board.marineHits[0] + 1], bugs := [Strike(Marine, Bug, board.bugs[0], 9)])
    ensures MarineEntries(board, true, Nine) == [board.marineHits[0] + 1] && BugEntries(board, true, Nine) == []
  {
    SoloTurn(board, true, Nine);
  }

  /** A Bug's turn with the draws `Nine`: a living Bug misses, and logs its unchanged counter. */
  lemma BugNine(board: Board)
    requires Sized(board, 1, 1) && board.bugs[0].alive
    ensures Fits(Nine, 1, 1)
    ensures Turn(board, false, Nine) == board
    ensures MarineEntries(board, false, Nine) == [] && BugEntries(board, false, Nine) == [board.bugHits[0]]
  {
    SoloTurn(board, false, Nine);
  }

  /** The Marine's three hits of 50 on a fresh Bug: 50 left, then the carapace spent at 50, then dead at 0. */
  lemma NineStrikes(b: Vitals)
    requires b == Recruit(Bug)
    ensures Strike(Marine, Bug, b, 9) == b.(health := 50)
    ensures Strike(Marine, Bug, b.(health := 50), 9) == b.(health := 50, carapace := false)
    ensures Strike(Marine, Bug, b.(health := 50, carapace := false), 9) == b.(health := 0, alive := false, carapace := false)
  {
  }

  /** The game-over check after each Marine turn of the witness game. */
  lemma NineJudged(m: Vitals, b: Vitals)
    requires m.alive && b == Recruit(Bug)
    ensures Judge(Grazed(m, b)) == Ongoing && Judge(Shelled(m, b)) == Ongoing
    ensures Judge(Felled(m, b)) == MarinesVictorious
  {
  }

  /** The hits vectors of the witness game, put together iteration by iteration. */
  lemma NineLogs()
    ensures [] + [3] == [3] && [0] + [] == [0]
    ensures [2] + [3] == [2, 3] && [] + [0] == [0]
    ensures [] + [2, 3] == [2, 3] && [0] + [0] == [0, 0]
    ensures [1] + [2, 3] == [1, 2, 3] && [] + [0, 0] == [0, 0]
  {
  }

  /** The Marine's hits vector of the witness game sums to 6. */
  lemma NineSum()
    ensures Sum([1, 2, 3]) == 6
  {
    assert [1, 2, 3][..2] == [1, 2] && [1, 2][..1] == [1] && [1][..0] == [];
  }

  /** The fifth iteration: the Marine's third hit fells the Bug. */
  lemma NineFifth(m: Vitals, b: Vitals, script: seq<Round>)
    requires m.alive && b == Recruit(Bug) && AllNines(script, 5)
    ensures Game(Shelled(m, b), true, script, 4) == Ending(Felled(m, b), 1, MarinesVictorious, [3], [])
  {
    NinesFit(script);
    MarineNine(Shelled(m, b));
    NineStrikes(b);
    NineJudged(m, b);
  }

  /** The fourth iteration: the Bug misses. */
  lemma NineFourth(m: Vitals, b: Vitals, script: seq<Round>)
    requires m.alive && b == Recruit(Bug) && AllNines(script, 5)
    ensures Game(Shelled(m, b), false, script, 3) == Ending(Felled(m, b), 2, MarinesVictorious, [3], [0])
  {
    NinesFit(script);
    BugNine(Shelled(m, b));
    NineJudged(m, b);
    NineFifth(m, b, script);
    NineLogs();
  }

  /** The third iteration: the carapace takes the Marine's second hit. */
  lemma NineThird(m: Vitals, b: Vitals, script: seq<Round>)
    requires m.alive && b == Recruit(Bug) && AllNines(script, 5)
    ensures Game(Grazed(m, b), true, script, 2) == Ending(Felled(m, b), 3, MarinesVictorious, [2, 3], [0])
  {
    NinesFit(script);
    MarineNine(Grazed(m, b));
    NineStrikes(b);
    NineJudged(m, b);
    NineFourth(m, b, script);
    NineLogs();
  }

  /** The second iteration: the Bug misses. */
  lemma NineSecond(m: Vitals, b: Vitals, script: seq<Round>)
    requires m.alive && b == Recruit(Bug) && AllNines(script, 5)
    ensures Game(Grazed(m, b), false, script, 1) == Ending(Felled(m, b), 4, MarinesVictorious, [2, 3], [0, 0])
  {
    NinesFit(script);
    BugNine(Grazed(m, b));
    NineJudged(m, b);
    NineThird(m, b, script);
    NineLogs();
  }

  /**
   * `Game` on a lone living Marine and a lone fresh Bug, Marines first, with
   * five iterations of the draws `Nine`: the Marine hits three times (the
   * carapace absorbs the second hit), the Bug falls on the fifth iteration and
   * the Marines are victorious.  The Marine's counter is 3, and its hits
   * vector holds 1, 2 and 3.
   */
  lemma OverCountGame(m: Vitals, b: Vitals, script: seq<Round>)
    requires m.alive && b == Recruit(Bug) && AllNines(script, 5)
    ensures Game(Facing(m, b), true, script, 0) == Ending(Felled(m, b), 5, MarinesVictorious, [1, 2, 3], [0, 0])
  {
    NinesFit(script);
    MarineNine(Facing(m, b));
    NineStrikes(b);
    NineJudged(m, b);
    NineSecond(m, b, script);
    NineLogs();
  }

  /**
   * The total of `gameLoop` counts a hit more than once.  One Marine and one
   * Bug, Marines first, with the draws `FiveNines`: the game ends with the
   * Marines victorious after the Marine landed 3 hits, and `HitTotal` (the sum
   * of the counters) says 3, but the tally says 9: the living Marine's counter
   * once, plus the counters 1, 2 and 3 it pushed after each of its volleys.
   */
  method OverCountWitness() returns (verdict: Verdict, asWritten: int, intended: int, landed: nat)
    ensures verdict == MarinesVictorious
    ensures landed == 3 && intended == landed && asWritten == 9
  {
    var marine := new Soldier("Marine", Marine);
    var bug := new Soldier("Bug", Bug);
    var script := [Nine, Nine, Nine, Nine, Nine];
    ghost var m, b := marine.State(), bug.State();
    assert [marine][..0] == [] && [bug][..0] == [];
    assert Snapshot([marine], [bug]) == Facing(m, b);
    OverCountGame(m, b, script);
    NinesFit(script);
    var bugTotal, turnNumber;
    asWritten, bugTotal, verdict, turnNumber := GameLoop([marine], [bug], true, script);
    assert [marine][..0] == [];
    assert marine.State() == m && marine.hits == 3 by {
      assert States([marine]) == [marine.State()] && HitCounts([marine]) == [marine.hits];
    }
    assert LivingHits([marine]) == 3;
    NineSum();
    intended := HitTotal([marine]);
    landed := marine.hits;
  }
}
