# Roll specifier: a verified model

This project models the roll specifier of the dice roller. The roll specifier is a text field in
which a player types a roll such as `2d6+1`. It has two parts:

- **The grammar and its action.** A parsing expression grammar reads the specifier: optional
  whitespace, an optional roll count, the marker `d` or `D`, one of the side counts 100, 20, 12,
  10, 8, 6, 4 or 2, and an optional signed modifier. The action then draws one random face per
  roll and adds up the total.
- **The control logic.** Submitting a specifier does the following:
  - it is refused while the current roll still has unresolved dice;
  - the text is parsed, and a malformed text produces an error notification;
  - a well-formed text clears any finished roll, resets the dice counts, adds one die per roll
    and sets the bonus to the modifier;
  - once dice are pending, an effect starts the roll, records it in the history and resets the
    selection.

The modules follow that split:

- `Decimal` (decimal.dfy): digit runs, `parseInt` and the numeral that a template literal
  writes.
- `Grammar` (grammar.dfy): one function per rule (`_`, `number`, `dice_sides`, `modifier`,
  `dice_roll`) and `Parse`, which requires the whole input to match. They follow PEG semantics:
  repetition is greedy, and ordered choice commits to its first matching alternative.
- `AcceptedShape` (shape.dfy): describes the accepted strings without the parser, and proves
  that the parser accepts exactly those strings with exactly those values.
- `RoundTrip` (round_trip.dfy): a canonical text for every roll request that parses back to the
  same request, plus worked examples. Among them are the PEG-specific readings: `1d25` means two
  sides with a modifier of 5, and `1d1000` means 100 sides with a modifier of 0.
- `DiceRolls` (dice_rolls.dfy): the `parseRoll` action, written as a loop.
  `Math.random()` is a parameter `random`, where `random(i)` is the i-th value it returns and
  lies in [0, 1).
- `RollControls` (controls.dfy): the state the component reads and writes, held in three
  stores (dice controls, roll, history) plus the component's `inputSubmitted` flag. Each store
  operation and each handler is a function on that state. A log of store calls makes call order
  and "no store call" statable.
- `LaunchProperties` (launch.dfy): what the handlers promise.
- `Component` (roll_specifier.dfy): the component as a class whose fields are that state. Each
  handler is a method, proved to have exactly the effect of the matching `RollControls`
  function.

Three behaviours follow from the code rather than from a reading of its intent, and the model
keeps them:

- `hasDice` compares only the ids of the default dice counts. A well-formed specifier whose die
  id is not a default die is counted but not rolled by this launch, and the submit stays
  pending. Its dice are rolled, together with the new selection, once the user next adds a
  default die.
- `prepareRoll` resets the counts to the defaults and then adds the specifier's dice. When the
  default counts are not all zero, the roll includes them: with one default D6, `2d6` rolls
  three D6.
- A malformed specifier still sets `inputSubmitted`. If dice were already selected, the effect
  rolls them.

## Model

| member | source | states |
|---|---|---|
| `Grammar.Whitespace` | src/controls/RollSpecifier.tsx:46-47 | `_` consumes the longest run of space, tab, CR and LF from the position; the run is all whitespace and the next character is not |
| `Grammar.Number` | src/controls/RollSpecifier.tsx:43-45 | `number` matches exactly when a digit follows; it consumes the maximal digit run, and its value is the decimal value of that run |
| `Grammar.FirstAlternative` | src/controls/RollSpecifier.tsx:38-39 | the chosen alternative is a prefix of the input, and no earlier alternative is; none is chosen only when no alternative is a prefix |
| `Grammar.DiceSides` | src/controls/RollSpecifier.tsx:38-39 | `dice_sides` succeeds exactly when some alternative is a prefix; it takes the first such alternative, and its value is a standard face count |
| `Grammar.SidesValue` | src/controls/RollSpecifier.tsx:24 | `parseInt` of an alternative's text is a standard face count, and writing that count gives the text back |
| `Grammar.SidesValuesDistinct` | src/controls/RollSpecifier.tsx:38-39 | distinct alternatives of `dice_sides` have distinct values |
| `Grammar.AlternativeValues` | src/controls/RollSpecifier.tsx:39 | every alternative is a non-empty digit run, and its value is a standard face count whose numeral is that text |
| `Grammar.Modifier` | src/controls/RollSpecifier.tsx:40-42 | past the optional sign and the whitespace after it, `modifier` matches exactly when a digit comes next; it consumes the whole digit run, and its value is that run's decimal value, negated after `-` |
| `Grammar.AfterSides` | src/controls/RollSpecifier.tsx:36-37 | `modifier? _` never fails and stops at the first non-whitespace character; without a digit after the optional sign the modifier is 0 and only whitespace is consumed, otherwise it is the `modifier` value followed by whitespace |
| `AcceptedShape.ModifierPresent` | src/controls/RollSpecifier.tsx:40-45 | a sign, whitespace and a digit run that end the input's modifier part are exactly what `modifier` consumes, with the signed value of the digits |
| `AcceptedShape.ModifierComplete` | src/controls/RollSpecifier.tsx:36-42 | when the rest of the input is an optional signed number between whitespace, `modifier? _` consumes all of it and yields the signed number, or 0 when there is none |
| `AcceptedShape.ModifierSound` | src/controls/RollSpecifier.tsx:36-42 | when `modifier? _` reaches the end of the input, the rest of the input is an optional signed number between whitespace, and the value is that number, or 0 when there is none |
| `Grammar.AfterCount` | src/controls/RollSpecifier.tsx:36 | from the marker on, a match carries the given roll count and a standard face count, and ends within the input |
| `Grammar.DiceRoll` | src/controls/RollSpecifier.tsx:35-37 | a match of `dice_roll` ends within the input and has a roll count of at least 1 and a standard face count; `AcceptedShape.CountComplete` and `ParseAcceptsExactlyShaped` state that a missing or zero count becomes 1 |
| `Grammar.Parse` | src/controls/RollSpecifier.tsx:34-37 | a successful parse yields at least one roll and one of the eight face counts |
| `AcceptedShape.CountOf` | src/controls/RollSpecifier.tsx:37 | a missing or zero count is one roll, any other count is its own value |
| `AcceptedShape.CountComplete` | src/controls/RollSpecifier.tsx:35-37 | when whitespace, an optional digit run and whitespace lead up to the marker, `dice_roll` goes on from the marker with a count of one for a missing or zero digit run and the run's value otherwise |
| `AcceptedShape.ParseAcceptsExactlyShaped` | src/controls/RollSpecifier.tsx:34-47 | the grammar accepts an input if and only if it has the described shape, and the parsed values are the ones that shape stands for |
| `AcceptedShape.ParseSound` | src/controls/RollSpecifier.tsx:34-47 | every accepted input has a layout of the described shape whose values are the parse result |
| `AcceptedShape.ParseComplete` | src/controls/RollSpecifier.tsx:34-47 | every input with a layout of the described shape parses to that layout's count, sides and modifier |
| `RoundTrip.ParseFormat` | src/controls/RollSpecifier.tsx:34-47 | the canonical text of any request the grammar can yield parses back to that request |
| `RoundTrip.ParseWithCountAndModifier` | src/controls/RollSpecifier.tsx:36-42 | `2d20+3` parses to 2 rolls of 20 sides with modifier 3 |
| `RoundTrip.ParseTwoD6PlusOne` | src/controls/RollSpecifier.tsx:36-42 | `2d6+1` parses to 2 rolls of 6 sides with modifier 1 |
| `RoundTrip.ParseWithoutCount` | src/controls/RollSpecifier.tsx:36-37 | `d6` parses to one roll of 6 sides and modifier 0 |
| `RoundTrip.ParseUpperCaseSpaced` | src/controls/RollSpecifier.tsx:36-47 | `1D8 - 2` parses: the marker ignores case, and whitespace may surround the sign |
| `RoundTrip.ParseZeroCount` | src/controls/RollSpecifier.tsx:37 | ` 0d4 ` parses to one roll: a count of 0 becomes 1 |
| `RoundTrip.ParseCommitsToTwoSides` | src/controls/RollSpecifier.tsx:38-42 | `1d25` parses as 2 sides with modifier 5: ordered choice commits to `2`, and an unsigned number is a modifier |
| `RoundTrip.ParseCommitsToHundredSides` | src/controls/RollSpecifier.tsx:38-42 | `1d1000` parses as 100 sides with modifier 0: ordered choice takes `100`, and the trailing `0` is an unsigned modifier |
| `RoundTrip.ParseRejectsUnlistedSides` | src/controls/RollSpecifier.tsx:39 | `3d7` is rejected: 7 is not one of the listed side counts |
| `RoundTrip.ParseRejectsOneSide` | src/controls/RollSpecifier.tsx:39 | `1d1` is rejected |
| `RoundTrip.ParseRejectsText` | src/controls/RollSpecifier.tsx:36 | `abc` is rejected: no marker follows the optional count |
| `RoundTrip.ParseRejectsDanglingSign` | src/controls/RollSpecifier.tsx:40-47 | `1d6+` is rejected: a sign without a number is not a modifier, so the input is not fully consumed |
| `Decimal.Numeral` | src/controls/RollSpecifier.tsx:124 | the number written into a die id is a non-empty digit run with no leading zero |
| `Decimal.ValueOfNumeral` | src/controls/RollSpecifier.tsx:45 | `parseInt` of the numeral of `n` is `n` |
| `Decimal.NumeralOfValue` | src/controls/RollSpecifier.tsx:45 | a digit run with no leading zero is the numeral of its `parseInt` value |
| `Decimal.ValuePositive` | src/controls/RollSpecifier.tsx:45 | a digit run that does not start with `0` has a positive value |
| `DiceRolls.Draw` | src/controls/RollSpecifier.tsx:26 | `Math.floor(u * sides) + 1` lies between 1 and `sides` for `u` in [0, 1) |
| `DiceRolls.SumBounds` | src/controls/RollSpecifier.tsx:25-29 | `n` faces of a die with `sides` faces add up to between `n` and `n * sides` |
| `DiceRolls.ParseRoll` | src/controls/RollSpecifier.tsx:21-32 | `parseRoll` makes exactly `rolls` draws, the i-th from the i-th random value, each in [1, sides]; the total is their sum plus the modifier, and lies between `rolls` and `rolls * sides` above the modifier |
| `DiceRolls.ParseSpecifier` | src/controls/RollSpecifier.tsx:120 | `parser.parse` fails exactly when the grammar rejects the input; on success it returns the action's draws and total for the parsed count, sides and modifier |
| `RollControls.AddCount` | src/controls/RollSpecifier.tsx:65 | adding `n` dice of one id raises that id's count by `n` (an absent id counts as 0) and leaves every other count unchanged |
| `RollControls.DiceSetId` | src/controls/RollSpecifier.tsx:62 | the dice set id is used as it is, except that `all` becomes `GALAXY_STANDARD` |
| `RollControls.ErrorMessage` | src/controls/RollSpecifier.tsx:129 | the error notification quotes the whole input after its 29-character prefix, and closes the quote |
| `RollControls.RolledDiceById` | src/controls/RollSpecifier.tsx:100-105 | the history's dice record has exactly the ids of the counts, each mapped to its die, or to nothing when the die is unknown |
| `RollControls.FinishedRolling` | src/controls/RollSpecifier.tsx:83-91 | `finishedRolling` holds if and only if no value of the current roll is `null`, which includes having no values at all |
| `RollControls.HasDice` | src/controls/RollSpecifier.tsx:140-146 | dice are pending if and only if some default count is missing from the current counts or differs from it; never when the counts are the defaults |
| `LaunchProperties.HasDiceIgnoresOtherIds` | src/controls/RollSpecifier.tsx:140-146 | changing the count of an id that has no default count never changes whether dice are pending |
| `RollControls.DieId` | src/controls/RollSpecifier.tsx:124 | the die id is the dice set id, then `_D`, then a digit run whose value is the side count |
| `LaunchProperties.DieIdDeterminesSides` | src/controls/RollSpecifier.tsx:124 | two die ids of one dice set are equal only for equal side counts |
| `LaunchProperties.ClearedRollIsFinished` | src/controls/RollSpecifier.tsx:77-81 | after `clearRollIfNeeded` no roll is set, and the launch gate is open whenever a roll was cleared |
| `LaunchProperties.IncrementedTimesEffect` | src/controls/RollSpecifier.tsx:123-125 | the increment loop raises one count by the roll count, calls `incrementDieCount` exactly that often and changes nothing else |
| `LaunchProperties.PrepareRollRejects` | src/controls/RollSpecifier.tsx:128-130 | a malformed specifier appends one error notification naming the input and changes nothing else, with no store call |
| `LaunchProperties.PrepareRollAccepts` | src/controls/RollSpecifier.tsx:118-127 | a well-formed specifier clears a present roll, resets the counts, adds its rolls to its die's count and sets the bonus to its modifier, in that call order, and changes nothing else |
| `LaunchProperties.PreparedHasDice` | src/controls/RollSpecifier.tsx:140-146 | after a well-formed specifier, dice are pending if and only if its die id is one of the default dice |
| `LaunchProperties.HandleRollOutcome` | src/controls/RollSpecifier.tsx:93-116 | with dice pending, `handleRoll` starts one roll with the current counts, bonus and visibility, appends one history entry keyed by the counted ids, then resets counts, bonus and advantage, in that call order; nothing else changes and no dice remain pending |
| `LaunchProperties.LaunchGate` | src/controls/RollSpecifier.tsx:133-138 | while some value of the current roll is `null`, a launch changes nothing |
| `LaunchProperties.LaunchRollsSpecifier` | src/controls/RollSpecifier.tsx:133-153 | a launch of a well-formed specifier for a default die rolls the default counts with its die raised by its roll count, with its modifier as bonus; it records that roll once, resets the selection and clears the submit flag, with no notification |
| `LaunchProperties.NonDefaultDieRolledLater` | src/controls/RollSpecifier.tsx:140-153 | after a well-formed specifier whose die is not a default die, the next increment of a default die makes the effect roll once, and the recorded counts include the specifier's dice |
| `LaunchProperties.LaunchWithoutDefaultDie` | src/controls/RollSpecifier.tsx:140-153 | a well-formed specifier whose die is not a default die starts no roll, adds no history and leaves the submit pending |
| `LaunchProperties.LaunchMalformed` | src/controls/RollSpecifier.tsx:118-153 | a malformed specifier notifies once; previously selected dice are still rolled with the current bonus, recorded once and reset, and otherwise counts, bonus and store calls are unchanged and the submit stays pending |
| `LaunchProperties.LaunchAppendsAtMostOnce` | src/controls/RollSpecifier.tsx:93-153 | a launch and its effect only extend the history, by at most one entry |
| `LaunchProperties.StandardD6Id` | src/controls/RollSpecifier.tsx:124 | with the `all` dice set, the id of a six-sided die is `GALAXY_STANDARD_D6` |
| `LaunchProperties.LaunchTwoD6PlusOne` | src/controls/RollSpecifier.tsx:118-153 | when the default count of the standard D6 is 0, launching `2d6+1` on the `all` set records two standard D6 with bonus 1 and resets the selection |
| `Component.CollectRolledDice` | src/controls/RollSpecifier.tsx:100-105 | the loop over the ids of the counts builds exactly the record `RolledDiceById` describes |
| `Component.RollSpecifier.IncrementDieCount` | src/controls/RollSpecifier.tsx:65 | one more die of the id, and the call is logged |
| `Component.RollSpecifier.ResetDiceCounts` | src/controls/RollSpecifier.tsx:66 | the counts become the default counts, and the call is logged |
| `Component.RollSpecifier.SetDiceBonus` | src/controls/RollSpecifier.tsx:64 | the bonus becomes the given value, and the call is logged |
| `Component.RollSpecifier.SetDiceAdvantage` | src/controls/RollSpecifier.tsx:74 | the advantage becomes the given value, and the call is logged |
| `Component.RollSpecifier.StartRoll` | src/controls/RollSpecifier.tsx:75 | the roll becomes the given request, and the call is logged |
| `Component.RollSpecifier.PushRecentRoll` | src/controls/RollSpecifier.tsx:76 | the entry is appended to the history, and the call is logged |
| `Component.RollSpecifier.ClearRoll` | src/controls/RollSpecifier.tsx:67 | no roll and no roll values remain, and the call is logged |
| `Component.RollSpecifier.ShowNotification` | src/controls/RollSpecifier.tsx:129 | the notification is appended to those shown |
| `Component.RollSpecifier.ClearRollIfNeeded` | src/controls/RollSpecifier.tsx:77-81 | the new state is `RollControls.ClearRollIfNeeded` of the old one: clear only when a roll is set |
| `Component.RollSpecifier.PrepareRoll` | src/controls/RollSpecifier.tsx:118-131 | the new state is `Prepared` of the old one, whose outcomes `PrepareRollAccepts` and `PrepareRollRejects` state |
| `Component.RollSpecifier.HandleReset` | src/controls/RollSpecifier.tsx:112-116 | the new state is `Reset` of the old one: default counts, bonus 0, no advantage, in that call order |
| `Component.RollSpecifier.HandleRoll` | src/controls/RollSpecifier.tsx:93-110 | the new state is `Rolled` of the old one, whose outcome `HandleRollOutcome` states |
| `Component.RollSpecifier.HandleRollLaunch` | src/controls/RollSpecifier.tsx:133-138 | the new state is `Launched` of the old one: prepare and mark submitted only when the roll is finished |
| `Component.RollSpecifier.RunSubmitEffect` | src/controls/RollSpecifier.tsx:148-153 | the new state is `SubmitEffect` of the old one: when dice are pending after a submit, clear the flag and run `handleRoll` |

## Left out

- The JSX view (the text field, the launch button, Enter-key handling and the tray height) is
  not modelled. The specifier text is a parameter of the handlers.
- React scheduling is not modelled. The `useEffect` on `hasDice` and `inputSubmitted` is a
  method run explicitly after a launch, and `useMemo` values are recomputed from the current
  state.
- The store bodies are not part of this model. Each store operation has the effect the
  component relies on:
  - `incrementDieCount` starts an absent id from 0;
  - `resetDiceCounts` restores the default counts;
  - `clearRoll` empties the roll and its values;
  - `startRoll` sets the roll;
  - `pushRecentRoll` appends to the history.
- `startRoll` does not fill in the roll values with one `null` per die. That bookkeeping, and
  the recording of die values, belong to the roll store, which is not part of this model.
- `getDiceToRoll` is kept as the record of its three arguments, because its expansion of
  advantage into dice is store code outside this model.
- `Math.random()` is the parameter `random`. Floating-point rounding of
  `Math.floor(Math.random() * sides)` is not modelled: the product is a real number.
- `parseInt` is exact on unbounded naturals. Precision loss above 2^53 is not modelled.
- The parser runs the `parseRoll` action before it checks for end of input. A rejected input
  can therefore consume random values. The model draws only for accepted input, because the
  consumed values are invisible to the component.
- The exception that `parser.parse` throws becomes `None`. The notification sent to the host
  is recorded as a value in the state; its display is not modelled.
- The `useEffect` that runs `handleRoll` fires only when `hasDice` or `inputSubmitted` changes.
  The model fires it whenever both hold. The two agree on every state the component can rest
  in, because the effect always clears that pair. Lemmas such as `LaunchMalformed` also cover
  starting states where both already hold, which the component never rests in.
