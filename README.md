# BugHuntSim2 combat rules in Dafny

BugHuntSim2 is a Marines-versus-Bugs battle simulator that exists in several
versions. This project models the combat core of each version and proves the
properties the code promises or ought to promise.

Every version has a Marine hit on a roll above 7 and a Bug hit on a roll
above 8. The threadpool, turns, threads and polymorph2 versions also share
these rules:
- A roll of 10 is a critical hit.
- A hit deals 50, or 100 on a critical hit.
- A Bug's one-shot carapace absorbs the first blow that would take it to 0 or below.

The polymorph and basic versions differ, as their modules below describe:
- In the basic version a Marine hit always deals 50, there is no critical
  hit, and a Bug's hit deals nothing.
- In both, `protect` acts only when health is exactly 0.

The modules:

- `Rules` (rules.dfy): the shared rules, on values. A soldier's combat state
  is a `Vitals` record of health, the `alive` flag and the carapace. Every
  rule is a function from the old state to the new one. It also holds the
  hit comparison of `postProcessing`, the "Marine victory" test and
  `Exchange`, the rolls of one round of a one-on-one fight.
- `Combatant` (combatant.dfy): the `Soldier`/`Marine`/`Bug` classes of the
  threadpool, turns and threads versions. The three versions use identical
  rules. The classes become one `Soldier` class with a constant `kind`, and
  each virtual method dispatches on it. Each method is proved against the
  `Rules` functions.
- `TaskQueue` (task_queue.dfy): `ThreadSafeQueue<T>` of the threadpool
  version, seen sequentially as a FIFO over a sequence.
- `PoolBattle` (pool_battle.dfy): the threadpool version's `battle` step and
  its kill attribution through `alive.exchange(false)`. It also covers the
  statistics of `postProcessing`: per-side hit and kill totals, the highest
  kill count and every soldier that reaches it.
- `ThreadBattle` (thread_battle.dfy): the threads version's `battle` step,
  its living counts, the winner and the hit totals.
- `TurnBattle` (turn_battle.dfy): the turns version. It covers:
  - the `marineAttack`/`bugAttack` volleys over the rosters;
  - the game-over check and the turn toggle of `gameLoop`;
  - its hit totals;
  - the first-turn choice.
- `PolymorphTwo` (polymorph_two.dfy): soldier_w_polymorph2.cpp. Here the
  carapace sets health to exactly 50, and a Bug's attack lowers health
  without calling `takeDamage`.
- `Polymorph` (polymorph.dfy): soldier_w_polymorph.cpp. `main` applies the
  rules itself, and `Bug::protect` acts only at exactly 0 health.
- `BasicSoldier` (basic_soldier.dfy): soldier.cpp. Every Marine hit takes 50
  and a Bug's hit never lowers the Marine's health.

Inputs are parameters of the model:
- Each `rand() % 10 + 1` becomes a roll constrained to 1..10 (`IsRoll`).
- Each random target index becomes an index parameter.
- Each loop that runs "until the game is over" takes a finite script of
  draws and also stops when the script runs out.

The threadpool version credits a kill when `alive.exchange(false)` returns
false, i.e. when the defender's own `takeDamage` has already cleared the flag.
The intended design credits the attacker that observes the flag still true.
The model follows the code, and the discrepancy is the first finding below.

## Model

| member | source | states |
|---|---|---|
| Rules.BaseTakeDamage | soldier_w_threadpool.cpp:133-139 | health drops by the damage; the soldier is alive afterwards exactly when it was alive and its health is still positive; the carapace is untouched |
| Rules.BugTakeDamage | soldier_w_threadpool.cpp:207-217 | a dead Bug stays dead; a spent carapace never returns; while the carapace is intact the Bug cannot die; the carapace is consumed exactly by a blow to 0 or below; a living Bug dies exactly when a blow takes it to 0 or below with no carapace; health drops by the damage, and the absorbed blow gives back 50 |
| Rules.TakeDamage | soldier_w_threadpool.cpp:207-217 | whichever class takes the damage, it is never revived and never regrows a carapace |
| Rules.Strike | soldier_w_threadpool.cpp:154-206 | a miss changes nothing; no attack revives or re-armours its target; a Bug's critical hit leaves `alive` and the carapace as they were |
| Rules.MarineHitDamage | soldier_w_threadpool.cpp:154-174 | a Marine hits exactly on 8..10 and deals 50, or 100 on a 10, through the target's `takeDamage` |
| Rules.BugHitDamage | soldier_w_threadpool.cpp:186-206 | a Bug hits exactly on 9 or 10; a 9 deals 50 through `takeDamage`; a 10 subtracts 100 from health and touches nothing else |
| Rules.CarapaceSavesAtMostOnce | soldier_w_threadpool.cpp:207-217 | over any sequence of blows the carapace absorbs at most one, and none once it is gone |
| Rules.DeadStaysDead | soldier_w_threadpool.cpp:133-139 | no sequence of blows brings a dead soldier back |
| Rules.SpentCarapaceLethal | soldier_w_threadpool.cpp:213-215 | with its carapace spent, a blow that takes a living Bug to 0 or below kills it |
| Rules.CompareHits | soldier_w_turns.cpp:265-271 | the verdict is "Marines more accurate" exactly when Marine hits exceed Bug hits, "Bugs more effective" exactly in the reverse case, and a draw exactly when they are equal |
| Rules.Victor | soldier_w_threadpool.cpp:302-306 | "Marine victory" is announced exactly when the Marine count is positive |
| Rules.VictorMeansSurvivor | soldier_w_threads.cpp:189-193 | when the count equals the number of living Marines, "Marine victory" means some Marine is alive and "Bugs triumphant" means none is |
| Combatant.Soldier.constructor | soldier_w_threadpool.cpp:121 | a new soldier has its name and class, 100 health, is alive, has a carapace exactly if it is a Bug, no hits and no kills |
| Combatant.Soldier.TakeDamage | soldier_w_threadpool.cpp:133-139 | the new combat state is `Rules.TakeDamage` of the old one for the soldier's class; counters and kill list unchanged |
| Combatant.Soldier.Slay | soldier_w_threadpool.cpp:203-206 | a Marine's critical hit is `takeDamage(100)` on the target; a Bug's subtracts 100 from the target's health only |
| Combatant.Soldier.Attack | soldier_w_threadpool.cpp:154-169 | the attacker's hit counter goes up exactly on a hit; the target's state becomes `Rules.Strike` of its old one; nothing else changes |
| Combatant.Soldier.ExchangeAliveFalse | soldier_w_threadpool.cpp:242 | `alive.exchange(false)` returns the previous flag and leaves the soldier dead, everything else unchanged |
| Combatant.HitTotal | soldier_w_threads.cpp:197-203 | the total is the sum of every soldier's counter, living or dead |
| TaskQueue.ThreadSafeQueue.constructor | soldier_w_threadpool.cpp:50 | a new queue is empty |
| TaskQueue.ThreadSafeQueue.Push | soldier_w_threadpool.cpp:28-32 | the item is appended at the back |
| TaskQueue.ThreadSafeQueue.Pop | soldier_w_threadpool.cpp:35-42 | the oldest item is returned and removed; item plus remaining queue is the old queue |
| TaskQueue.ThreadSafeQueue.Empty | soldier_w_threadpool.cpp:44-47 | true exactly when nothing is queued |
| TaskQueue.FifoOrder | soldier_w_threadpool.cpp:25-52 | for any sequence of items pushed onto a new queue, popping until the queue is empty returns exactly that sequence, in order |
| PoolBattle.Attribute | soldier_w_threadpool.cpp:239-243 | the attack then `alive.exchange(false)`: the defender's health is what the attack leaves; it ends dead exactly when the attack killed it or left its health at 0 or below; the attacker is credited exactly when the attack itself already cleared `alive` |
| PoolBattle.AttributionAsWritten | soldier_w_threadpool.cpp:229-258 | on a living defender the step leaves it dead exactly when its health is gone, but credits the attacker exactly when the attack itself already cleared `alive` |
| PoolBattle.MarineCredit | soldier_w_threadpool.cpp:239-243 | a Marine is credited exactly when it hits a Bug whose carapace is spent and whose health the blow exhausts |
| PoolBattle.BugCredit | soldier_w_threadpool.cpp:239-243 | a Bug is credited exactly for a plain hit (roll 9) on a Marine at 50 health or less |
| PoolBattle.UncreditedKills | soldier_w_threadpool.cpp:242 | a Bug's critical hit killing a Marine, and a Marine's critical hit on a Bug at 50 whose carapace restores it to 0, kill without any credit |
| PoolBattle.AsWrittenCountDrifts | soldier_w_threadpool.cpp:242-255 | after a step the opposing count exceeds the number of living defenders by one for each uncredited kill |
| PoolBattle.LoneMarineStillCounted | soldier_w_threadpool.cpp:242-255 | a lone Marine killed by a Bug's critical hit is dead yet still counted, so the Marine count never reaches 0 |
| PoolBattle.AttributeCorrected | soldier_w_threadpool.cpp:239-243 | corrected step: credit exactly when the defender was alive and is now dead; death exactly when it was dead or its health is gone |
| PoolBattle.CorrectedCountTracksLiving | soldier_w_threadpool.cpp:242-255 | with the corrected step the opposing count stays equal to the number of living defenders |
| PoolBattle.Engine.constructor | soldier_w_threadpool.cpp:221-223 | counts start at the roster sizes and the game is not over |
| PoolBattle.Engine.Battle | soldier_w_threadpool.cpp:229-258 | nothing happens unless both live; otherwise the defender's state, the credit, the kill list, the counts and `gameOver` follow `Attribute`, and the attacker's counter goes up exactly on a hit |
| PoolBattle.MaxKillsBounds | soldier_w_threadpool.cpp:317-331 | the highest kill count bounds every soldier's count and is the starting floor or some soldier's count |
| PoolBattle.AchieversSound | soldier_w_threadpool.cpp:323-329 | every listed top killer is in the roster with exactly the given count |
| PoolBattle.AchieversAbove | soldier_w_threadpool.cpp:323-329 | nobody is listed for a count above the running maximum |
| PoolBattle.AchieversComplete | soldier_w_threadpool.cpp:323-329 | every soldier with the given count is listed |
| PoolBattle.TallyStep | soldier_w_threadpool.cpp:318-330 | folding in one soldier as `tallyKills` does extends the running totals, maximum and top-killer list from a prefix to the next |
| PoolBattle.TallyKills | soldier_w_threadpool.cpp:317-331 | hit and kill totals grow by the roster's sums; the maximum becomes the roster's maximum over the old one; the list is reset when the maximum rises and then gains exactly the soldiers at the new maximum |
| PoolBattle.SumHitsAppend | soldier_w_threadpool.cpp:333-334 | the hit sum over two rosters is the sum of their sums |
| PoolBattle.SumKillsAppend | soldier_w_threadpool.cpp:333-334 | the kill sum over two rosters is the sum of their sums |
| PoolBattle.MaxKillsAppend | soldier_w_threadpool.cpp:333-334 | sharing the running maximum across the two calls gives the maximum over both rosters |
| PoolBattle.AchieversAppend | soldier_w_threadpool.cpp:333-334 | the top-killer list over two rosters is the Marines' list then the Bugs' |
| PoolBattle.TopKillersExact | soldier_w_threadpool.cpp:314-334 | no soldier exceeds the highest count, and the listed soldiers are exactly those reaching it |
| PoolBattle.PostProcessing | soldier_w_threadpool.cpp:309-347 | per-side hit and kill totals are the roster sums; the highest count is the maximum over all soldiers (floored at 0); the top killers are exactly those reaching it, Marines first; the verdict is `CompareHits` of the totals |
| ThreadBattle.BattleStep | soldier_w_threads.cpp:132-148 | the opposing count drops exactly when both were alive and the defender is now dead; nothing changes unless both are alive; nobody is revived |
| ThreadBattle.CountTracksLiving | soldier_w_threads.cpp:132-148 | a count equal to the number of living defenders stays equal after a step |
| ThreadBattle.CriticalBiteLeavesMarineStanding | soldier_w_threads.cpp:104-107 | a Bug's critical hit takes a Marine at 100 or less to 0 or below, yet it stays alive and uncounted |
| ThreadBattle.Engine.constructor | soldier_w_threads.cpp:122-124 | counts start at the roster sizes and the game is not over |
| ThreadBattle.Engine.Battle | soldier_w_threads.cpp:132-148 | the defender's state, counts and `gameOver` follow `BattleStep`; the attacker's counter goes up exactly on a hit while both live |
| ThreadBattle.Conclude | soldier_w_threads.cpp:189-203 | the winner is `Victor` of the Marine count; the totals are the sums of every soldier's counter |
| TurnBattle.LoggedShape | soldier_w_turns.cpp:130-137 | a volley pushes one entry per living attacker, and the entries sum to at least the living attackers' old counters |
| TurnBattle.Fire | soldier_w_turns.cpp:130-146 | a volley on values keeps the defending roster's size |
| TurnBattle.FireCount | soldier_w_turns.cpp:130-146 | a volley never raises the number of living defenders |
| TurnBattle.FireEffects | soldier_w_turns.cpp:130-137 | through a volley no defender is revived or re-armoured, and a defender no living attacker chose is unchanged |
| TurnBattle.Engage | soldier_w_turns.cpp:133-134 | attacker `i` strikes defender `t`: their states and counters change as `Attack` says and no other soldier of either roster changes |
| TurnBattle.VolleyStep | soldier_w_turns.cpp:131-136 | one loop iteration advances the volley invariant by one attacker |
| TurnBattle.Volley | soldier_w_turns.cpp:130-146 | `marineAttack`/`bugAttack`: attackers keep their state and count their hits; the vector gains exactly the counters of the living attackers in roster order; each defender ends as the strikes aimed at it leave it |
| TurnBattle.NoneAlive | soldier_w_turns.cpp:210-216 | `none_of(alive)` is true exactly when no soldier of the roster is alive, i.e. when its living count is 0 |
| TurnBattle.NoneAliveCount | soldier_w_turns.cpp:210-216 | no soldier alive is the same as a living count of 0 |
| TurnBattle.CheckGameOver | soldier_w_turns.cpp:210-216 | "Marines victorious" exactly when no Bug lives; "Bugs triumph" exactly when some Bug lives and no Marine does; otherwise the game goes on; the verdict is `Judge` of the rosters as values |
| TurnBattle.MarinesFirst | soldier_w_turns.cpp:316-322 | the Marines move first unless the answer is 'b' (invalid answers default to 'm') |
| TurnBattle.Toggle | soldier_w_turns.cpp:219-223 | the side to move changes at every toggle, and the turn number goes up by one exactly when the turn passes back to the Marines |
| TurnBattle.TicksClosedForm | soldier_w_turns.cpp:219-223 | after `n` toggles the side to move alternates with the parity of `n`, and the turn number is 1 plus the returns to the Marines |
| TurnBattle.TallyHits | soldier_w_turns.cpp:232-252 | the total is the living soldiers' counters plus the sum of the hits vector |
| TurnBattle.Turn | soldier_w_turns.cpp:200-206 | one turn on values: the side to move keeps its states, the other side keeps its counters, and both rosters keep their sizes |
| TurnBattle.Game | soldier_w_turns.cpp:197-224 | the loop on values stops within the script; an `Ongoing` ending means the script ran out; with no iteration played, the rosters are as they were; a verdict other than `Ongoing` is the game-over check of the final rosters |
| TurnBattle.GameStep | soldier_w_turns.cpp:197-224 | one iteration of the loop: play the turn, log its entries, stop on a verdict or go on with the other side to move |
| TurnBattle.GameVerdict | soldier_w_turns.cpp:210-216 | "Marines victorious" ends a game exactly when at least one iteration was played and no Bug lives; "Bugs triumph" exactly when one was played, a Bug lives and no Marine does |
| TurnBattle.Advance | soldier_w_turns.cpp:130-146 | `marineAttack`/`bugAttack` on the rosters as values: they end as `Volleyed` of their old values, and the vector gains `Logged` of the old attackers |
| TurnBattle.Move | soldier_w_turns.cpp:200-206 | only the side to move fires: both rosters end as `Turn` of their old values, and each hits vector gains exactly that side's entries for the turn |
| TurnBattle.PlayTurn | soldier_w_turns.cpp:200-216 | the rosters end as `Turn` of their old values, so only the side to move fires; each hits vector gains that turn's entries; the verdict is `Judge` of the new rosters and true of them |
| TurnBattle.Iteration | soldier_w_turns.cpp:197-224 | one iteration of the loop, with the toggle, keeps the rosters, clock, verdict and hits vectors on course for the game the whole script plays |
| TurnBattle.CourseStep | soldier_w_turns.cpp:197-224 | a turn played and judged moves the game on course by one iteration |
| TurnBattle.Tally | soldier_w_turns.cpp:232-252 | once the loop stops, the rosters, verdict and vectors are those of the game's ending, the turn number has its closed form, and the totals are the living counters plus the vectors' sums |
| TurnBattle.GameLoop | soldier_w_turns.cpp:197-257 | the rosters and verdict end exactly as `Game` plays the script from the starting rosters with the chosen side first; the turn number is 1 plus the returns to the Marines over the iterations played; each total is the living soldiers' counters plus the sum of the entries the iterations logged; each verdict is true of the rosters |
| TurnBattle.Duel | soldier_w_turns.cpp:130-137 | a volley of one soldier against one: it strikes and logs its counter exactly when alive |
| TurnBattle.OverCountGame | soldier_w_turns.cpp:197-224 | a lone Marine against a fresh Bug, Marines first, the Marine rolling 9 and the Bug 1 each turn: the Bug falls on the fifth iteration, the Marines are victorious, the Marine's counter is 3 and its hits vector holds 1, 2 and 3 |
| TurnBattle.OverCountWitness | soldier_w_turns.cpp:197-257 | that game played through `gameLoop` ends "Marines victorious" with the Marine having landed 3 hits, the counter sum 3, yet the Marines' total 9 |
| PolymorphTwo.BugDamage | soldier_w_polymorph2.cpp:85-95 | nobody is revived; the carapace never returns; it is consumed exactly by a blow to 0 or below, which leaves the Bug alive at exactly 50; otherwise health drops by the damage; a living Bug dies exactly when a blow takes it to 0 or below with no carapace |
| PolymorphTwo.Injure | soldier_w_polymorph2.cpp:24-30 | the virtual `takeDamage`: nobody is revived or re-armoured; the damage comes off health unless a Bug's carapace is spent, which leaves it at exactly 50 |
| PolymorphTwo.Blow | soldier_w_polymorph2.cpp:66-84 | a miss changes nothing; a Marine's hit is the target's `takeDamage` of 50, or 100 on a 10; a Bug's hit lowers the target's health by 50 or 100 and changes nothing else |
| PolymorphTwo.RestoreIsAssignment | soldier_w_polymorph2.cpp:89 | the carapace leaves the Bug at exactly 50 whatever the blow, where the other versions give back 50; a critical hit on a Bug at 50 leaves 50 here and 0 there |
| PolymorphTwo.Soldier.constructor | soldier_w_polymorph2.cpp:15 | 100 health, alive, carapace exactly for a Bug |
| PolymorphTwo.Soldier.TakeDamage | soldier_w_polymorph2.cpp:85-95 | the new state is the class's damage rule applied to the old |
| PolymorphTwo.Soldier.Slay | soldier_w_polymorph2.cpp:55-58 | a Marine's critical hit is `takeDamage(100)`; a Bug's subtracts 100 from health only |
| PolymorphTwo.Soldier.Attack | soldier_w_polymorph2.cpp:66-79 | the target's new state is `Blow` of its old one |
| PolymorphTwo.Soldier.AttackCorrected | soldier_w_polymorph2.cpp:66-79 | corrected attack: the target's new state is `StrikeCorrected` of its old one |
| PolymorphTwo.Fight | soldier_w_polymorph2.cpp:109-114 | the loop on values stops within the script, and stops early only with a soldier dead |
| PolymorphTwo.FightSparesMarine | soldier_w_polymorph2.cpp:74-84 | as written, a Marine alive at the start is alive at the end, so a Bug still standing means the script ran out |
| PolymorphTwo.Battle | soldier_w_polymorph2.cpp:109-114 | both soldiers' final states and the rounds fought are exactly those of `Fight` as written; the Marine is alive throughout, so the loop ends only by the Bug's death or when the rolls run out |
| PolymorphTwo.MarineNeverFalls | soldier_w_polymorph2.cpp:66-84 | however many Bug hits land, a living Marine stays alive while its health falls by their damage |
| PolymorphTwo.MarineAtMinusHundred | soldier_w_polymorph2.cpp:81-84 | two critical Bug hits leave a fresh Marine alive at -100 |
| PolymorphTwo.StrikeCorrected | soldier_w_polymorph2.cpp:66-79 | corrected attack: a miss changes nothing, a hit is the target's `takeDamage` of 50 or 100 |
| PolymorphTwo.CorrectedMarineMortal | soldier_w_polymorph2.cpp:24-30 | with corrected attacks a Marine is alive exactly while its health is positive, never revives, and loses exactly the damage landed |
| PolymorphTwo.BattleCorrected | soldier_w_polymorph2.cpp:109-114 | both soldiers' final states and the rounds fought are exactly those of `Fight` with corrected attacks; both stay alive exactly while their health is positive, and the loop stops early only with one of them dead |
| Polymorph.Marine.constructor | soldier_w_polymorph.cpp:19 | a new Marine is a fresh Marine |
| Polymorph.Bug.constructor | soldier_w_polymorph.cpp:19 | a new Bug is a fresh Bug with its carapace |
| Polymorph.Protected | soldier_w_polymorph.cpp:51-57 | `protect` on values: the carapace is spent and 50 health given back exactly when health is exactly 0; `alive` is untouched |
| Polymorph.ProtectedCorrected | soldier_w_polymorph.cpp:51-57 | corrected `protect` on values: the carapace is spent and 50 given back exactly when health is 0 or below |
| Polymorph.Bug.Protect | soldier_w_polymorph.cpp:51-57 | the new state is `Protected` of the old: only at exactly 0 does it give back 50 and spend the carapace |
| Polymorph.Bug.ProtectCorrected | soldier_w_polymorph.cpp:51-57 | corrected `protect`: at 0 or below it gives back 50 and spends the carapace |
| Polymorph.Shot | soldier_w_polymorph.cpp:74-89 | a miss changes nothing; a hit takes 50, or 100 on a 10; the carapace is spent and 50 given back exactly when the hit leaves exactly 0; the Bug is alive afterwards exactly when it was alive and either keeps its carapace or has health left |
| Polymorph.ShotCorrected | soldier_w_polymorph.cpp:74-89 | with corrected `protect`: a miss changes nothing; a hit takes 50 or 100; the carapace is spent and 50 given back exactly when the hit leaves 0 or below; the Bug stays alive exactly when it was alive and either had its carapace or has health left |
| Polymorph.Bite | soldier_w_polymorph.cpp:96-109 | a miss changes nothing; a hit takes 50 or 100; the Marine stays alive exactly when it was alive and still has health, or the Bug missed |
| Polymorph.Play | soldier_w_polymorph.cpp:71-113 | the battle stops within the script, and stops early only when a soldier is dead |
| Polymorph.Fire | soldier_w_polymorph.cpp:74-89 | the Bug's new state is `Shot` of its old one; the loop breaks exactly when the Bug died |
| Polymorph.Claw | soldier_w_polymorph.cpp:96-109 | the Marine's new state is `Bite` of its old one; the loop breaks exactly when the Marine died |
| Polymorph.Battle | soldier_w_polymorph.cpp:71-113 | both soldiers' final states and the rounds fought are exactly those of `Play` |
| Polymorph.CarapaceBelowZeroImmortal | soldier_w_polymorph.cpp:83-89 | a Bug below 0 with its carapace intact stays alive, armoured and below 0 under any Marine shots |
| Polymorph.NineThenTenStrandsCarapace | soldier_w_polymorph.cpp:74-89 | a 9 then a 10 leave a fresh Bug alive at -50 with its carapace intact |
| Polymorph.StrandedBugOutlasts | soldier_w_polymorph.cpp:71-113 | from that state the Bug is alive when the battle stops, whatever the rolls |
| Polymorph.ShotCorrectedWears | soldier_w_polymorph.cpp:83-89 | with corrected `protect`, the armoured-states invariant holds and every landed hit lowers the hits the Bug has left |
| Polymorph.CorrectedBugFalls | soldier_w_polymorph.cpp:83-89 | with corrected `protect`, the Bug is dead once the Marine has landed as many hits as it had left |
| Polymorph.FreshBugHasThree | soldier_w_polymorph.cpp:38-41 | a fresh Bug satisfies the invariant with three hits left |
| BasicSoldier.Marine.constructor | soldier.cpp:12 | 100 health and alive |
| BasicSoldier.Bug.constructor | soldier.cpp:12 | a fresh Bug with its carapace |
| BasicSoldier.Bug.Protect | soldier.cpp:33-39 | only at exactly 0 does it give back 50 and spend the carapace; otherwise nothing changes |
| BasicSoldier.Worn | soldier.cpp:54-63 | after `n` Marine hits the Bug is alive exactly when `n < 3`, has positive health while alive, and has its carapace only before the second hit |
| BasicSoldier.WornStep | soldier.cpp:56-62 | a Marine hit on a living Bug moves it exactly one step along `Worn`; `protect` is always consulted at exactly 0 |
| BasicSoldier.Claws | soldier.cpp:68-79 | the Bug's half of a round: the Marine falls, and the loop is to stop, exactly when the Bug hits and the Marine's health is already 0 or below; its health never changes |
| BasicSoldier.Skirmish | soldier.cpp:42-80 | the Marine ends untouched at 100; the Bug ends in the `Worn` state of the landed hits; it is dead exactly after the third, and the loop stops early only then |

## Left out

- `ThreadPool` (soldier_w_threadpool.cpp:59-105): its worker threads, task submission and shutdown are concurrency, which Dafny's sequential model does not express.
- Thread interleaving in the threadpool and threads versions is not modelled. Each `battle` call is one atomic step, so races on `health` and on the counts are not modelled.
- Sleeps, the per-soldier scheduling loops that resubmit `battle` and `std::thread::hardware_concurrency` are scheduling, not rules.
- `rand`, `srand` and `time` are not modelled. Rolls and target indices are parameters.
- `std::cout` and `std::cin` output and prompts, the troop-count input and `turn_max`, which is read but never used, are not modelled. `processForce`'s per-soldier kill printing is also out.
- threads_pool.cpp, threads_single.cpp and threads_vector.cpp are thread demonstrations, not combat rules, and are not part of this model.
- The unused `battle` lambda of soldier_w_turns.cpp:165-195 is never called and is not modelled.
- `size_t` counts are modelled as unbounded integers. Their wrap-around below 0 cannot occur while the counts track living soldiers, but is not modelled where they drift.
- Loops that run until the game is over are bounded by a finite script of draws.
- TaskQueue.ThreadSafeQueue.Pop: `ThreadSafeQueue::pop` blocks on an empty queue until a push arrives. The model requires a non-empty queue instead.
- TurnBattle.Volley: it takes a target and a roll for every attacker, including dead ones whose draws go unused. It also requires a non-empty defending roster, as `rand() % size()` does.
- TurnBattle.GameLoop: its hit totals are stated as the living counters plus the sum of the entries `Game` logs, rather than as a closed number of landed hits, because as written they over-count (see the findings).

## Findings

| source | as written | input that shows it | evidently intended | confidence | as-written member | corrected member |
|---|---|---|---|---|---|---|
| soldier_w_threadpool.cpp:242 | the attacker is credited when `alive.exchange(false)` returns false, i.e. when the defender was already marked dead | one Marine at 100 health hit by a Bug's critical roll 10: it is dead, nobody is credited and the Marine count stays 1 | credit the attacker whose exchange still finds `alive` true, so each death is credited once and the counts track the living | not executed | PoolBattle.LoneMarineStillCounted | PoolBattle.CorrectedCountTracksLiving |
| soldier_w_turns.cpp:251-252 | the totals add each living soldier's counter to every counter pushed after each of its volleys, and those counters are cumulative | one Marine and one Bug, Marines first, each aiming at the other: the Marine rolls 9 on each of its three turns and the Bug 1 on each of its two; the third hit kills the Bug and the Marines are victorious; the Marine landed 3 hits and is tallied 9 | sum each soldier's counter once, as soldier_w_threads.cpp:197-203 does | not executed | TurnBattle.OverCountWitness | Combatant.HitTotal |
| soldier_w_polymorph.cpp:52 | `protect` acts only when health is exactly 0, and `main` marks the Bug dead only once its carapace is spent | the Marine rolls 9 then 10: the Bug is at -50 with its carapace intact and is never marked dead | `protect` on any health of 0 or below, so three landed hits always kill a fresh Bug | not executed | Polymorph.NineThenTenStrandsCarapace | Polymorph.CorrectedBugFalls |
| soldier_w_polymorph2.cpp:74 | a Bug's hit (and its critical hit at line 83) lowers the Marine's health without calling `takeDamage`, so the Marine is never marked dead | two Bug rolls of 10: the Marine is alive at -100 | route Bug hits through `takeDamage` like the Marine's | not executed | PolymorphTwo.MarineAtMinusHundred | PolymorphTwo.CorrectedMarineMortal |
| soldier.cpp:70-76 | a Bug's hit only checks whether the Marine is already down, and never lowers its health | any rolls: the Bug rolls 9 or 10 every round, and the Marine stays at 100 | a hit takes 50 from the Marine, as in soldier_w_polymorph.cpp:96-109 | not executed | BasicSoldier.Skirmish | Polymorph.Bite |
