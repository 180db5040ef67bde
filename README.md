# Blur of Talons stack-duration tracker

A Dafny model of the Survival Hunter "Blur of Talons" azerite analyzer of
WoWAnalyzer. During a fight the analyzer receives the player's buff events.
It keeps one bin per stack count 0..5 of the Blur of Talons buff, and each bin
lists the lengths of the intervals spent at that count. On each
apply / apply-stack / remove of the buff, and once at fight end, the analyzer
does three things:

- it closes the open interval `[lastBlurUpdate, timestamp)` into the bin of
  the level that was active during it;
- it moves `lastBlurUpdate` to the event's timestamp;
- it switches to the new level.

The model also covers the agility the trait grants per stack (a fold over the
trait's ranks) and the integer numerator of the "average agility" accessor.

Modules:

- `BlurEvents` (`events.dfy`): the four event kinds, the buff id and the
  stack limit.
- `Bins` (`bins.dfy`): bin totals, the stack-weighted time, the avgAgility
  numerator, and their lemmas.
- `BlurStats` (`stats.dfy`): the per-rank agility fold.
- `BlurTracker` (`tracker.dfy`): the tracker as a pure state machine. It is
  the specification the class is proved against. It holds the whole-run
  lemmas: telescoping, no fault, non-negative intervals, whole-fight
  accounting.
- `BlurAnalyzer` (`analyzer.dfy`): the analyzer class. Its fields are updated
  in place. A `Valid()` invariant ties the bins' total to `lastBlurUpdate`.
  Each handler is proved equal to the state machine's step.
- `Scenarios` (`scenarios.dfy`): worked fights.

Where the source throws, the model returns `ok == false`. This happens in
`blurOfTalonStacks[this.lastBlurStack].push(...)` when the current level has
no bin: the analyzer is inactive (no bins), or a stack count outside 0..5 was
recorded. The throw comes at the *next* event, not at the out-of-range event
itself. After such a throw only `currentStacks` has changed, because the
level assignment ran before the failing push.

## Model

| member | source | states |
|---|---|---|
| `BlurStats.BlurOfTalonsStats` | src/parser/hunter/survival/modules/spells/azeritetraits/BlurOfTalons.tsx:13-19 | Agility per stack is 0 for no ranks. It is non-negative when every rank's agility is. For n copies of one rank it is n times that rank's agility. |
| `BlurStats.StatsAppend` | src/parser/hunter/survival/modules/spells/azeritetraits/BlurOfTalons.tsx:13-19 | The fold is additive: the stats of `a + b` are the stats of `a` plus the stats of `b`. |
| `Bins.TotalTimeAfterPush` | src/parser/hunter/survival/modules/spells/azeritetraits/BlurOfTalons.tsx:83 | Pushing a length `d` onto any one bin raises the total recorded time by exactly `d`. |
| `Bins.TotalTimeOfEmptyBins` | src/parser/hunter/survival/modules/spells/azeritetraits/BlurOfTalons.tsx:51 | Freshly allocated empty bins hold no time. |
| `Bins.PushKeepsNonNegative` | src/parser/hunter/survival/modules/spells/azeritetraits/BlurOfTalons.tsx:83 | Pushing a non-negative length keeps every recorded length non-negative. |
| `Bins.BinAgilityTimeFactors` | src/parser/hunter/survival/modules/spells/azeritetraits/BlurOfTalons.tsx:68 | The inner reduce of avgAgility equals the bin's total time × its stack index × agility. |
| `Bins.NumeratorFactors` | src/parser/hunter/survival/modules/spells/azeritetraits/BlurOfTalons.tsx:66-71 | `Bins.AvgAgilityNumerator` (the outer reduce over bins, with the inner reduce `Bins.BinAgilityTime`) equals agility × Σ(stack index × bin time), an independent closed form. |
| `Bins.WeightedTimeIgnoresStackZero` | src/parser/hunter/survival/modules/spells/azeritetraits/BlurOfTalons.tsx:67-68 | Replacing the stack-0 bin leaves the stack-weighted time unchanged. |
| `Bins.NumeratorIgnoresStackZero` | src/parser/hunter/survival/modules/spells/azeritetraits/BlurOfTalons.tsx:66-71 | The avgAgility numerator gets no contribution from the stack-0 bin, whatever it holds. |
| `Bins.WeightedTimeBounds` | src/parser/hunter/survival/modules/spells/azeritetraits/BlurOfTalons.tsx:67-68 | With non-negative lengths, 0 ≤ stack-weighted time ≤ (highest index) × total time. |
| `Bins.NumeratorBounds` | src/parser/hunter/survival/modules/spells/azeritetraits/BlurOfTalons.tsx:66-71 | With non-negative lengths, at most 6 bins and agility ≥ 0: 0 ≤ numerator ≤ 5 × agility × total time. The average is at most five stacks' worth. |
| `BlurTracker.Initial` | src/parser/hunter/survival/modules/spells/azeritetraits/BlurOfTalons.tsx:36-51 | The starting state has 6 empty bins if the trait is equipped and none otherwise. Its total time is 0, level 0, and the open interval starts at the fight start. |
| `BlurTracker.HandleStacks` | src/parser/hunter/survival/modules/spells/azeritetraits/BlurOfTalons.tsx:73-86 | The call completes iff the old level has a bin. The new level, `BlurTracker.NextStacks`, is 0 / 1 / `event.stack` / the passed `stack` by event kind. On success: exactly one entry `timestamp − old lastBlurUpdate` is appended to the old level's bin; every other bin is unchanged; `lastBlurUpdate` is the timestamp; `lastBlurStack == currentStacks`. On a throw only `currentStacks` changes. |
| `BlurTracker.OnEvent` | src/parser/hunter/survival/modules/spells/azeritetraits/BlurOfTalons.tsx:88-114 | A buff event with another spell id changes nothing. A Blur of Talons buff event completes iff the current level has a bin, appends `timestamp − lastBlurUpdate` to that bin, and moves to its level at its time. Fight end keeps the level and closes the final interval at the fight-end time. |
| `BlurTracker.Run` | src/parser/hunter/survival/modules/spells/azeritetraits/BlurOfTalons.tsx:88-114 | Feeding events in order never changes the number of bins; no events change nothing. |
| `BlurTracker.HandleStacksTelescopes` | src/parser/hunter/survival/modules/spells/azeritetraits/BlurOfTalons.tsx:83-84 | Each call adds to the bins exactly the time `lastBlurUpdate` advances by. |
| `BlurTracker.OnEventTelescopes` | src/parser/hunter/survival/modules/spells/azeritetraits/BlurOfTalons.tsx:88-114 | Every handler, filtered or not, keeps total binned time − `lastBlurUpdate` unchanged. |
| `BlurTracker.RunTelescopes` | src/parser/hunter/survival/modules/spells/azeritetraits/BlurOfTalons.tsx:83-84 | Over any event sequence, total binned time − `lastBlurUpdate` is invariant. So total time always equals `lastBlurUpdate − fight start`. |
| `BlurTracker.RunAppend` | src/parser/hunter/survival/modules/spells/azeritetraits/BlurOfTalons.tsx:88-114 | Running `a` then `b` equals running `a + b`, unless `a` threw. |
| `BlurTracker.RunNoFault` | src/parser/hunter/survival/modules/spells/azeritetraits/BlurOfTalons.tsx:79-83 | With 6 bins, a level in 0..5, and every Blur of Talons stack event carrying 0..5, no handler indexes a missing bin, and the level stays in 0..5. |
| `BlurTracker.RunNonNegative` | src/parser/hunter/survival/modules/spells/azeritetraits/BlurOfTalons.tsx:83-84 | With non-decreasing timestamps no earlier than `lastBlurUpdate`, every recorded interval is non-negative. |
| `BlurTracker.WholeFightAccounted` | src/parser/hunter/survival/modules/spells/azeritetraits/BlurOfTalons.tsx:112-114 | For an equipped trait, in-range stacks and chronological events ending in fight end at T: nothing throws, there are 6 bins, `lastBlurUpdate == T`, total time == T − start, and no interval is negative. |
| `BlurAnalyzer.BlurOfTalons.constructor` | src/parser/hunter/survival/modules/spells/azeritetraits/BlurOfTalons.tsx:43-56 | `active` is the trait check. If active: agility is the rank fold and there are 6 fresh empty bins. Otherwise: agility 0 and no bins. The state is `Initial`. |
| `BlurAnalyzer.BlurOfTalons.TimesByStacks` | src/parser/hunter/survival/modules/spells/azeritetraits/BlurOfTalons.tsx:58-60 | Reads only. Returns 6 bins if active and none otherwise, holding exactly `lastBlurUpdate − fight start`. |
| `BlurAnalyzer.BlurOfTalons.AvgAgilityNumerator` | src/parser/hunter/survival/modules/spells/azeritetraits/BlurOfTalons.tsx:66-71 | Reads only. Computes `Bins.AvgAgilityNumerator` of the bins; equals agility × stack-weighted time, and is 0 for an inactive analyzer. |
| `BlurAnalyzer.BlurOfTalons.HandleStacks` | src/parser/hunter/survival/modules/spells/azeritetraits/BlurOfTalons.tsx:73-86 | The new state and the throw flag are exactly `BlurTracker.HandleStacks` of the old state. The telescoping invariant `Valid()` is kept. |
| `BlurAnalyzer.BlurOfTalons.OnApplyBuff` | src/parser/hunter/survival/modules/spells/azeritetraits/BlurOfTalons.tsx:88-94 | Another spell id leaves the state unchanged. Otherwise the call is `HandleStacks` with level 1. The result equals `OnEvent`. |
| `BlurAnalyzer.BlurOfTalons.OnApplyBuffStack` | src/parser/hunter/survival/modules/spells/azeritetraits/BlurOfTalons.tsx:96-102 | Another spell id leaves the state unchanged. Otherwise the call is `HandleStacks` with level `event.stack`. The result equals `OnEvent`. |
| `BlurAnalyzer.BlurOfTalons.OnRemoveBuff` | src/parser/hunter/survival/modules/spells/azeritetraits/BlurOfTalons.tsx:104-110 | Another spell id leaves the state unchanged. Otherwise the call is `HandleStacks` with level 0. The result equals `OnEvent`. |
| `BlurAnalyzer.BlurOfTalons.OnFightEnd` | src/parser/hunter/survival/modules/spells/azeritetraits/BlurOfTalons.tsx:112-114 | Keeps `lastBlurStack` and moves `lastBlurUpdate` to the fight-end time, closing the final interval. |
| `BlurAnalyzer.BlurOfTalons.Replay` | src/parser/hunter/survival/modules/spells/azeritetraits/BlurOfTalons.tsx:88-114 | Routing events to the handlers, then fight end, gives exactly `BlurTracker.Run`. For an active analyzer with in-range stacks nothing throws. On success the bins hold `fightEnd − fight start`. |
| `Scenarios.ApplyStackRemoveScenario` | src/parser/hunter/survival/modules/spells/azeritetraits/BlurOfTalons.tsx:73-86 | Apply at 0, two stacks at 50, remove at 80, end at 100 gives bins `[0,20]`, `[50]`, `[30]`, total 100. Bin 0 also holds the zero-length interval before the first application, so it is `[0, 20]`. |
| `Scenarios.FinalFlushScenario` | src/parser/hunter/survival/modules/spells/azeritetraits/BlurOfTalons.tsx:112-114 | Three stacks at 100 with fight end at 500 records 400 at stack 3. |
| `Scenarios.OutOfRangeStackThrowsOnNextEvent` | src/parser/hunter/survival/modules/spells/azeritetraits/BlurOfTalons.tsx:79-83 | A stack count of 6 is accepted, and the next event then throws on the missing bin. |

## Left out

- The `uptime` getter is not modelled. It calls the combatant's buff-uptime query and does floating-point division.
- `statistic()` and its formatting and rendering are not modelled. They are UI only.
- The final division of avgAgility by the fight duration is floating point and is not modelled. Only the integer numerator is modelled, and the source divides term by term.
- `BlurAnalyzer.BlurOfTalons.constructor`: the azerite effect calculation is a parameter `agilityOf`. It gives the first component for one rank; an empty result array is not modelled.
- `BlurAnalyzer.BlurOfTalons.constructor`: the trait check is the parameter `hasTrait`, and the ranks list is the parameter `traitRanks`.
- The constructor's registration of the agility buff with the stat tracker is a side effect on another module. It is not modelled.
- The analyzer does not catch handler errors, and the framework's error handling is not modelled. `Replay` stops at the first handler that throws.
- The analyzer framework is not part of this model: dependency wiring, routing by handler name, and the "by player" source filter. `Replay` stands in for it, taking the player's events in order.
- `BlurAnalyzer.BlurOfTalons.TimesByStacks`: the getter returns the bin array by reference. The model returns its value, so aliasing by the caller is not captured.
- Timestamps, stack counts and agility are integers. Non-integer stack counts and JavaScript number rounding are not modelled.
- The buff id is the aura id of the Blur of Talons buff (277969). The spell table it comes from is not part of this model.
- The other files in the repository are not modelled. They are configuration, constant tables, or thin wrappers with UI.
