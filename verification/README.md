# Combat engine of chatemon, modelled in Dafny

This project models `Chatemon\Combat`, the engine that resolves one turn-based
fight between two combatants. Each combatant has a level, an attack stat, a
defence stat, a health value and a list of moves. A move has an accuracy and a
base power.

The engine does four things:

- It tracks whose turn it is and how many turns have been consumed.
- On each `takeTurn` it validates the move index. Then it consumes the turn,
  rolls a D100 against the move's accuracy, and on a hit takes the damage
  formula's result off the defender's health.
- It latches the winner flag once a defender drops below 1 health.
- It exports a snapshot (`toArray`) and restores its scalar fields from one
  (`setStateFromArray`).

Everything is a pure function over immutable values:

- `Fighters`: the two sides (`Side`, with `Other` for the flip), `Move` and
  `Combatant`.
- `Damage`: `calculateDamage`, written as a chain of floored divisions with the
  bonus and modifier stubs as named constants.
- `Engine`: the engine state `CombatState`, `TakeTurn` and `GetWinner`. A
  call that throws is reported as `Thrown(state, error)`, where `state` is the
  engine as PHP leaves it after the throw. A call that completes is
  `Returned(state)`.
- `Encounters`: properties of a whole fight. `Play` folds `TakeTurn` over a
  sequence of requests, the way a caller that catches every exception would
  drive the engine.
- `Snapshots`: `ToArray` and the two versions of `setStateFromArray`. One is
  as written and one is corrected; see Findings.

The randomizer is replaced by explicit roll values. The hit roll is taken from
1..100, and the variance roll from 217..255 only on a hit. The UUID becomes the
`id` parameter of `Start`. The accessors `getCombatantOne`, `getCombatantTwo`,
`getTurns`, `getId` and `isWinner` are the fields `one`, `two`, `turns`, `id`
and `winner` of `CombatState`. `getTurn` is `TurnName` of the `turn` field.

The code floors after every division, so this model floors too, via
`Damage.FloorDiv`. A description of the formula as "truncating" disagrees with
the code only when an intermediate value is negative, and the model follows
the code. A defence of 0 makes PHP's `/` raise `DivisionByZeroError`. That
happens after the turn has already been consumed, and the model reproduces it.

## Model

| member | source | states |
|---|---|---|
| Fighters.Other | src/Combat.php:62-66 | the side flip never returns the side it was given |
| Fighters.OtherInvolutive | src/Combat.php:66 | flipping the turn twice gives it back, so the two sides alternate |
| Fighters.TurnName | src/Combat.php:129-132 | `getTurn` reports "One" or "Two", and "One" exactly for side One |
| Fighters.OtherFlipsTurnName | src/Combat.php:62-66 | the label of the other side is the one the source's `=== 'One' ? 'Two' : 'One'` computes |
| Damage.FloorDiv | src/Combat.php:106-116 | each `floor(a / d)` step gives the greatest integer not above a/d, for positive and negative divisors |
| Damage.CalculateDamage | src/Combat.php:88-117 | fails exactly when defence is 0, with the division-by-zero error; otherwise the result is the base damage scaled by variance/255 and floored; for non-negative stats, positive defence and variance in [217,255] it lies between 1 and the base damage |
| Damage.NeutralModifiers | src/Combat.php:101-116 | the same-type bonus of 1 and the `*10/10` type modifier leave the base damage unchanged |
| Damage.BaseDamageAtLeastTwo | src/Combat.php:115-116 | with non-negative stats and positive defence the damage before variance is at least 2 |
| Damage.DamageBounds | src/Combat.php:106-116 | non-negative stats, positive defence and an in-range variance factor give damage in [1, base damage] |
| Damage.MaxVarianceIsBase | src/Combat.php:116 | at variance 255 the damage equals the base damage |
| Damage.DamageMonotoneInVariance | src/Combat.php:116 | a larger variance factor never yields less damage when the base damage is non-negative |
| Damage.WorkedExample | src/Combat.php:106-116 | level 50, attack 100, power 80, defence 100 and variance 255 give 37 damage |
| Engine.TakeTurn | src/Combat.php:44-86 | a decided fight throws already-won and nothing changes; a missing move index throws move-does-not-exist before the turn is consumed; a validated call adds 1 to the turn count and hands the turn to the other side whether it hits or misses; the attacker and id never change and the defender changes at most in health; a miss changes no health and leaves the winner flag; a hit takes exactly the formula's damage off the defender, unclamped, and sets the winner flag exactly when the defender ends below 1; a hit on defence 0 throws after the turn was consumed |
| Engine.GetWinner | src/Combat.php:152-158 | throws not-won exactly when undecided; otherwise returns combatant one if its health is at least 1, else combatant two |
| Engine.AccuracyExtremes | src/Combat.php:69-74 | for hit rolls in 1..100, accuracy 100 or more always hits, and accuracy 0 or less never hits and leaves both healths unchanged |
| Engine.MissIgnoresVariance | src/Combat.php:69-74 | a miss returns before the variance roll, so its outcome does not depend on that roll |
| Engine.WinnerLatches | src/Combat.php:83-85 | a takeTurn call on a decided fight never clears the winner flag |
| Engine.DecidingAttackerWins | src/Combat.php:152-158 | when both combatants stand before the deciding turn, getWinner afterwards returns that turn's attacker |
| Engine.OneHitKnockout | src/Combat.php:44-86 | two combatants at 10 health, accuracy 100, power 1000, level 100, attack 100, defence 1, variance 255: the first turn hits, knocks combatant two below 1, decides the fight, and getWinner returns combatant one |
| Encounters.TakeTurnKeepsParity | src/Combat.php:65-66 | one takeTurn call preserves "turn is One exactly when the turn count is even" |
| Encounters.PlayKeepsParity | src/Combat.php:65-66 | any sequence of takeTurn calls preserves that parity |
| Encounters.ParityFromStart | src/Combat.php:16-17 | from a fresh engine (turn One, 0 turns), turn is One exactly when the turn count is even |
| Encounters.DecidedIsFrozen | src/Combat.php:46-48 | once decided, no sequence of takeTurn calls changes anything |
| Encounters.WinnerIsMonotone | src/Combat.php:83-85 | the winner flag never goes back to false and the turn count never decreases |
| Encounters.PlayBookkeeping | src/Combat.php:65-79 | each call consumes at most one turn; the id and everything about the combatants except health stay the same |
| Encounters.TakeTurnKeepsConsistent | src/Combat.php:76-85 | one call keeps "undecided means both stand; decided means exactly one is below 1" |
| Encounters.PlayKeepsConsistent | src/Combat.php:76-85 | any sequence of calls keeps that invariant |
| Encounters.WinnerIsSurvivor | src/Combat.php:152-158 | for combatants that start standing, getWinner on a decided fight returns the one still standing, and the other is below 1 |
| Snapshots.ToArray | src/Combat.php:160-188 | the export carries both combatants, turn, turn count and id; it names no winner exactly when undecided instead of raising, and when it names one, that is getWinner's result |
| Snapshots.SetStateFromArrayAsWritten | src/Combat.php:190-196 | turn, turn count and id are overwritten and the combatants are untouched; an undecided export restores the flag to false; a decided export throws a type error and keeps the old flag |
| Snapshots.DecidedRestoreThrows | src/Combat.php:170-196 | restoring the export of any decided engine as written throws a type error |
| Snapshots.DecidedRestoreCounterexample | src/Combat.php:190-196 | a concrete decided fight whose export, restored as written into a fresh engine, throws and leaves that engine undecided |
| Snapshots.SetStateFromArray | src/Combat.php:190-196 | the corrected restore: it overwrites turn, turn count, id and the decided flag (decided exactly when the export names a winner), and leaves both combatants untouched |
| Snapshots.RestoresAgreeWhenUndecided | src/Combat.php:190-196 | on an undecided export the as-written and corrected restores give the same engine |
| Snapshots.RoundTrip | src/Combat.php:160-196 | restoring an export reproduces turn, turn count, id and decided flag and keeps the target's combatants; into an engine with the same combatants it reproduces the exported state exactly |
| Snapshots.RestoreKeepsTargetHealth | src/Combat.php:190-196 | the restore does not bring back exported health: the target's health values stay |
| Snapshots.ExportAnswersGetWinner | src/Combat.php:170-175 | the export's winner entry is getWinner's result when decided and absent exactly when getWinner throws not-won |

## Left out

- Logging: the logger calls are diagnostic only and do not affect control flow, so they are not modelled.
- UUID generation: the id is an opaque string passed to `Start`.
- Randomizer: its internals are not modelled. Roll values are parameters, and the range 1..100 or 217..255 is assumed only in the lemmas that need it.
- Integer width: PHP ints are 64-bit, and the `/` and `floor` in the damage formula go through floats. The model uses unbounded integers and exact floored division. Overflow and float precision loss for huge operands are out of scope.
- `toArray` representation: the `(array)` object casts and the wrapping of each move in a one-element array are representation details. The snapshot is an abstract record that keeps the combatants' full field sets and move lists.
- Turn strings: `setStateFromArray` accepts any string for `turn`. The model restricts `turn` to the two sides, because any other string breaks the attacker and defender lookup in `takeTurn`.
- Aliasing: the PHP engine holds the combatants by reference. The model treats them as values, so it does not model passing the same object as both combatants, or a caller changing a combatant during a fight.
- Move lists: the model treats them as zero-based lists. A PHP array with non-sequential keys is not modelled.
- Construction: `Start` is the constructor's initial state and carries no contract of its own. Its properties are stated by `Encounters.ParityFromStart` and `Encounters.WinnerIsSurvivor`.
- Play: `Encounters.Play` is a driver for multi-turn properties, not an operation of the source.

## Findings

| source | as written | input that shows it | evidently intended | confidence | as-written member | corrected member |
|---|---|---|---|---|---|---|
| src/Combat.php:170-195 | `toArray` exports the winning Combatant object under `winner`, and `setStateFromArray` assigns that value to the `bool` property `winner` | any decided engine restored from its own export: combatant two at health 0, winner flag set; the assignment raises a TypeError, leaving the target engine undecided with turn, turns and id already overwritten | a decided export restores a decided engine, so that the round trip reproduces turn, turn count, id and decided state | high; not executed | Snapshots.SetStateFromArrayAsWritten | Snapshots.SetStateFromArray |
