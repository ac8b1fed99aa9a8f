/** What the handlers of the roll specifier promise: a malformed specifier
    changes nothing but the notifications, a well-formed one resets the
    counts and adds its dice and bonus, a launch with pending dice starts
    one roll, appends one history entry and resets the selection. */
module LaunchProperties {
  import opened Options
  import opened Decimal
  import opened Grammar
  import opened RollControls
  import opened RoundTrip

  function Repeat<T>(x: T, n: nat): (r: seq<T>)
    ensures |r| == n && forall i :: 0 <= i < n ==> r[i] == x
  {
    if n == 0 then [] else Repeat(x, n - 1) + [x]
  }

  /** Clearing the roll leaves the launch gate open. */
  lemma ClearedRollIsFinished(st: State)
    ensures FinishedRolling(ClearRollIfNeeded(st).rollValues) == (st.roll.Some? || FinishedRolling(st.rollValues))
    ensures ClearRollIfNeeded(st).roll.None?
  {
  }

  /** `hasDice` looks only at the ids of the default counts: changing the
      count of any other id never makes dice pending or stops them being so. */
  lemma HasDiceIgnoresOtherIds(counts: DiceCounts, defaultCounts: DiceCounts, id: seq<char>, n: nat)
    requires id !in defaultCounts
    ensures HasDice(counts[id := n], defaultCounts) == HasDice(counts, defaultCounts)
  {
    var changed := counts[id := n];
    forall k | k in defaultCounts
      ensures (k in changed && changed[k] == defaultCounts[k]) <==> (k in counts && counts[k] == defaultCounts[k])
    {
      assert k != id;
    }
  }

  /** A die id names its side count: two ids of one dice set are equal only
      for equal side counts. */
  lemma DieIdDeterminesSides(setId: seq<char>, sides: nat, other: nat)
    requires DieId(setId, sides) == DieId(setId, other)
    ensures sides == other
  {
    var id := DieId(setId, sides);
    assert Value(id[|setId| + 2..]) == sides;
  }

  /** One more increment after `m` of them is `m + 1` increments. */
  lemma AddCountOnceMore(counts: DiceCounts, id: seq<char>, m: nat)
    ensures AddCount(AddCount(counts, id, m), id, 1) == AddCount(counts, id, m + 1)
  {
  }

  /** The call log after one more increment. */
  lemma RepeatOnceMore<T>(log: seq<T>, x: T, m: nat)
    ensures log + Repeat(x, m) + [x] == log + Repeat(x, m + 1)
  {
    assert Repeat(x, m + 1) == Repeat(x, m) + [x];
  }

  /** One more `incrementDieCount` call after `m` of them. */
  lemma IncrementedOnceMore(st: State, prev: State, id: seq<char>, m: nat)
    requires prev == st.(counts := AddCount(st.counts, id, m), calls := st.calls + Repeat(IncrementDieCount(id), m))
    ensures Incremented(prev, id) ==
            st.(counts := AddCount(st.counts, id, m + 1), calls := st.calls + Repeat(IncrementDieCount(id), m + 1))
  {
    AddCountOnceMore(st.counts, id, m);
    RepeatOnceMore(st.calls, IncrementDieCount(id), m);
  }

  /** The increment loop of `prepareRoll` adds `n` to one count, calling
      `incrementDieCount` exactly `n` times and nothing else. */
  lemma {:induction false} IncrementedTimesEffect(st: State, id: seq<char>, n: nat)
    ensures IncrementedTimes(st, id, n) ==
            st.(counts := AddCount(st.counts, id, n), calls := st.calls + Repeat(IncrementDieCount(id), n))
  {
    if n > 0 {
      var prev := IncrementedTimes(st, id, n - 1);
      IncrementedTimesEffect(st, id, n - 1);
      IncrementedOnceMore(st, prev, id, n - 1);
    }
  }

  /** A specifier that does not parse shows one error notification naming
      the input and calls no store operation. */
  lemma PrepareRollRejects(st: State, input: seq<char>)
    requires Parse(input).None?
    ensures Prepared(st, input) == st.(notifications := st.notifications + [Notification(ErrorMessage(input), "ERROR")])
    ensures ErrorMessage(input)[29..29 + |input|] == input
  {
  }

  /** A specifier that parses clears an existing roll, resets the counts,
      increments its die once per roll, sets the bonus to its modifier, in
      that order, and changes nothing else. */
  lemma PrepareRollAccepts(st: State, input: seq<char>)
    requires Parse(input).Some?
    ensures var spec := Parse(input).value;
      var id := DieId(DiceSetId(st.diceSetId), spec.sides);
      var after := Prepared(st, input);
      && after.counts == AddCount(st.defaultCounts, id, spec.rolls)
      && after.counts[id] == CountOrZero(st.defaultCounts, id) + spec.rolls
      && after.bonus == spec.modifier
      && after.roll.None?
      && after.rollValues == (if st.roll.Some? then map[] else st.rollValues)
      && after.calls == st.calls + (if st.roll.Some? then [ClearRoll] else []) + [ResetDiceCounts]
                        + Repeat(IncrementDieCount(id), spec.rolls) + [SetDiceBonus(spec.modifier)]
      && after.(counts := st.counts, bonus := st.bonus, roll := st.roll, rollValues := st.rollValues,
                calls := st.calls) == st
  {
    var spec := Parse(input).value;
    var id := DieId(DiceSetId(st.diceSetId), spec.sides);
    var cleared := ClearRollIfNeeded(st);
    var reset := CountsReset(cleared);
    var grown := IncrementedTimes(reset, id, spec.rolls);
    IncrementedTimesEffect(reset, id, spec.rolls);
    assert Prepared(st, input) == BonusSet(grown, spec.modifier);
    assert reset.calls == st.calls + (if st.roll.Some? then [ClearRoll] else []) + [ResetDiceCounts];
  }

  /** After a successful `prepareRoll` dice are pending exactly when the
      specifier's die is one of the default dice: `hasDice` only compares
      the ids of the default counts. */
  lemma PreparedHasDice(st: State, input: seq<char>)
    requires Parse(input).Some?
    ensures var after := Prepared(st, input);
      HasDice(after.counts, after.defaultCounts) <==> DieId(DiceSetId(st.diceSetId), Parse(input).value.sides) in st.defaultCounts
  {
    var spec := Parse(input).value;
    var id := DieId(DiceSetId(st.diceSetId), spec.sides);
    PrepareRollAccepts(st, input);
    var after := Prepared(st, input);
    if id in st.defaultCounts {
      assert after.counts[id] != after.defaultCounts[id];
    } else {
      forall k | k in after.defaultCounts ensures k in after.counts && after.counts[k] == after.defaultCounts[k] {
        assert k != id;
      }
    }
  }

  /** `handleRoll` with pending dice starts one roll with the current
      selection, appends one history entry whose dice are keyed exactly by
      the counted ids, and resets counts, bonus and advantage. */
  lemma HandleRollOutcome(st: State)
    requires HasDice(st.counts, st.defaultCounts)
    ensures var after := Rolled(st);
      && after.roll == Some(RollRequest(DiceToRoll(st.counts, st.advantage, st.diceById), st.bonus, st.hidden))
      && after.recentRolls == st.recentRolls + [HistoryEntry(st.advantage, st.counts, st.bonus, RolledDiceById(st.counts, st.diceById))]
      && after.recentRolls[|st.recentRolls|].diceById.Keys == st.counts.Keys
      && after.counts == st.defaultCounts && after.bonus == 0 && after.advantage.None?
      && !HasDice(after.counts, after.defaultCounts)
      && after.calls == st.calls + [StartRoll(after.roll.value), PushRecentRoll(after.recentRolls[|st.recentRolls|]),
                                    ResetDiceCounts, SetDiceBonus(0), SetDiceAdvantage(None)]
      && after.(roll := st.roll, recentRolls := st.recentRolls, counts := st.counts, bonus := st.bonus,
                advantage := st.advantage, calls := st.calls) == st
  {
  }

  /** The launch gate: while a roll still has `null` values, launching does nothing. */
  lemma LaunchGate(st: State, input: seq<char>)
    requires exists id :: id in st.rollValues && st.rollValues[id].None?
    ensures Launched(st, input) == st
  {
  }

  /** A launch of a well-formed specifier for a default die rolls exactly
      that request once and leaves a clean selection behind. */
  lemma LaunchRollsSpecifier(st: State, input: seq<char>)
    requires FinishedRolling(st.rollValues) && Parse(input).Some?
    requires DieId(DiceSetId(st.diceSetId), Parse(input).value.sides) in st.defaultCounts
    ensures var spec := Parse(input).value;
      var id := DieId(DiceSetId(st.diceSetId), spec.sides);
      var counts := AddCount(st.defaultCounts, id, spec.rolls);
      var after := LaunchedAndRolled(st, input);
      && counts[id] == st.defaultCounts[id] + spec.rolls
      && after.roll == Some(RollRequest(DiceToRoll(counts, st.advantage, st.diceById), spec.modifier, st.hidden))
      && after.recentRolls == st.recentRolls + [HistoryEntry(st.advantage, counts, spec.modifier, RolledDiceById(counts, st.diceById))]
      && after.counts == st.defaultCounts && after.bonus == 0 && after.advantage.None?
      && !after.inputSubmitted
      && after.notifications == st.notifications
  {
    var prepared := Prepared(st, input).(inputSubmitted := true);
    PrepareRollAccepts(st, input);
    PreparedHasDice(st, input);
    HandleRollOutcome(prepared.(inputSubmitted := false));
  }

  /** A well-formed specifier whose die is not among the default dice leaves
      its dice counted but rolls nothing; the submit stays pending. */
  lemma LaunchWithoutDefaultDie(st: State, input: seq<char>)
    requires FinishedRolling(st.rollValues) && Parse(input).Some?
    requires DieId(DiceSetId(st.diceSetId), Parse(input).value.sides) !in st.defaultCounts
    ensures var after := LaunchedAndRolled(st, input);
      && after.recentRolls == st.recentRolls
      && after.roll.None?
      && after.inputSubmitted
  {
    PrepareRollAccepts(st, input);
    PreparedHasDice(st, input);
  }

  /** The dice of a well-formed specifier whose die is not a default die
      stay counted with the submit pending; the next increment of a default
      die makes dice pending, and the effect then rolls them together. */
  lemma NonDefaultDieRolledLater(st: State, input: seq<char>, other: seq<char>)
    requires FinishedRolling(st.rollValues) && Parse(input).Some?
    requires DieId(DiceSetId(st.diceSetId), Parse(input).value.sides) !in st.defaultCounts
    requires other in st.defaultCounts
    ensures var id := DieId(DiceSetId(st.diceSetId), Parse(input).value.sides);
      var after := SubmitEffect(Incremented(LaunchedAndRolled(st, input), other));
      && |after.recentRolls| == |st.recentRolls| + 1
      && id in after.recentRolls[|st.recentRolls|].counts
      && after.recentRolls[|st.recentRolls|].counts[id] == Parse(input).value.rolls
      && !after.inputSubmitted
  {
    var spec := Parse(input).value;
    var id := DieId(DiceSetId(st.diceSetId), spec.sides);
    LaunchWithoutDefaultDie(st, input);
    PrepareRollAccepts(st, input);
    PreparedHasDice(st, input);
    var pending := LaunchedAndRolled(st, input);
    assert pending == Prepared(st, input).(inputSubmitted := true);
    var bumped := Incremented(pending, other);
    assert other != id;
    assert bumped.counts[other] != bumped.defaultCounts[other];
    HandleRollOutcome(bumped.(inputSubmitted := false));
  }

  /** A malformed specifier notifies once; the submit flag it sets still
      rolls dice the user had already selected, and otherwise stays set. */
  lemma LaunchMalformed(st: State, input: seq<char>)
    requires FinishedRolling(st.rollValues) && Parse(input).None?
    ensures var after := LaunchedAndRolled(st, input);
      && after.notifications == st.notifications + [Notification(ErrorMessage(input), "ERROR")]
      && |after.recentRolls| == |st.recentRolls| + (if HasDice(st.counts, st.defaultCounts) then 1 else 0)
      && after.inputSubmitted == !HasDice(st.counts, st.defaultCounts)
      && (!HasDice(st.counts, st.defaultCounts) ==> after.counts == st.counts && after.bonus == st.bonus && after.calls == st.calls)
      && (HasDice(st.counts, st.defaultCounts) ==>
            && after.roll == Some(RequestOf(st))
            && after.recentRolls == st.recentRolls + [EntryOf(st)]
            && after.counts == st.defaultCounts && after.bonus == 0 && after.advantage.None?)
  {
    var prepared := Prepared(st, input).(inputSubmitted := true);
    PrepareRollRejects(st, input);
    if HasDice(st.counts, st.defaultCounts) {
      HandleRollOutcome(prepared.(inputSubmitted := false));
    }
  }

  /** History only grows, by at most one entry per launch. */
  lemma LaunchAppendsAtMostOnce(st: State, input: seq<char>)
    ensures st.recentRolls <= LaunchedAndRolled(st, input).recentRolls
    ensures |LaunchedAndRolled(st, input).recentRolls| <= |st.recentRolls| + 1
  {
    var launched := Launched(st, input);
    assert st.recentRolls == launched.recentRolls by {
      if FinishedRolling(st.rollValues) {
        match Parse(input)
        case None =>
        case Some(spec) => PrepareRollAccepts(st, input);
      }
    }
    if HasDice(launched.counts, launched.defaultCounts) && launched.inputSubmitted {
      HandleRollOutcome(launched.(inputSubmitted := false));
    }
  }

  /** With the "all" dice set a six-sided die is the standard D6. */
  lemma StandardD6Id()
    ensures DieId(DiceSetId("all"), 6) == "GALAXY_STANDARD_D6"
  {
    assert Numeral(6) == "6";
  }

  /** "2d6+1" with the "all" dice set: two standard D6 and a bonus of 1 go
      into the history, and the selection is reset. */
  lemma LaunchTwoD6PlusOne(st: State)
    requires st.diceSetId == "all" && FinishedRolling(st.rollValues)
    requires "GALAXY_STANDARD_D6" in st.defaultCounts && st.defaultCounts["GALAXY_STANDARD_D6"] == 0
    ensures var after := LaunchedAndRolled(st, "2d6+1");
      && |after.recentRolls| == |st.recentRolls| + 1
      && "GALAXY_STANDARD_D6" in after.recentRolls[|st.recentRolls|].counts
      && after.recentRolls[|st.recentRolls|].counts["GALAXY_STANDARD_D6"] == 2
      && after.recentRolls[|st.recentRolls|].bonus == 1
      && after.counts == st.defaultCounts && after.bonus == 0
  {
    var input := "2d6+1";
    var spec := RollSpec(2, 6, 1);
    ParseTwoD6PlusOne();
    var id := "GALAXY_STANDARD_D6";
    StandardD6Id();
    LaunchRollsSpecifier(st, input);
    var counts := AddCount(st.defaultCounts, id, 2);
    var after := LaunchedAndRolled(st, input);
    assert after.recentRolls[|st.recentRolls|] == HistoryEntry(st.advantage, counts, 1, RolledDiceById(counts, st.diceById));
  }
}
