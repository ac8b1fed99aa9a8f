/** The roll-launch logic of src/controls/RollSpecifier.tsx over the store
    state it reads and writes, as values: the dice-controls store (counts,
    default counts, bonus, advantage, hidden flag, dice by id, dice set),
    the dice-roll store (active roll, roll values), the history store
    (recent rolls), the host's notifications, the component's
    `inputSubmitted` flag, and the log of store operations called, in order.
    Each store operation and each handler is a function from the state
    before to the state after; the class in roll_specifier.dfy performs
    them in place. */
module RollControls {
  import opened Options
  import opened Decimal
  import opened Grammar

  datatype Advantage = Advantage | Disadvantage

  /** A die descriptor from the dice-controls store, kept uninterpreted. */
  datatype Die = Die(descriptor: seq<char>)

  /** Die counts by die id (`${diceSetId}_D${sides}`). */
  type DiceCounts = map<seq<char>, nat>

  /** The arguments of `getDiceToRoll(counts, advantage, diceById)`. */
  datatype DiceToRoll = DiceToRoll(counts: DiceCounts, advantage: Option<Advantage>, diceById: map<seq<char>, Die>)

  /** The argument of `startRoll`. */
  datatype RollRequest = RollRequest(dice: DiceToRoll, bonus: int, hidden: bool)

  /** The argument of `pushRecentRoll`; a die id missing from `diceById`
      maps to `undefined`, here `None`. */
  datatype HistoryEntry = HistoryEntry(advantage: Option<Advantage>, counts: DiceCounts, bonus: int,
                                       diceById: map<seq<char>, Option<Die>>)

  datatype Notification = Notification(message: seq<char>, variant: seq<char>)

  /** The store operations the component calls. */
  datatype StoreCall =
    | ClearRoll
    | ResetDiceCounts
    | IncrementDieCount(id: seq<char>)
    | SetDiceBonus(bonus: int)
    | SetDiceAdvantage(advantage: Option<Advantage>)
    | StartRoll(request: RollRequest)
    | PushRecentRoll(entry: HistoryEntry)

  datatype State = State(
    counts: DiceCounts,
    defaultCounts: DiceCounts,
    bonus: int,
    advantage: Option<Advantage>,
    hidden: bool,
    diceById: map<seq<char>, Die>,
    diceSetId: seq<char>,
    roll: Option<RollRequest>,
    rollValues: map<seq<char>, Option<int>>,
    recentRolls: seq<HistoryEntry>,
    notifications: seq<Notification>,
    inputSubmitted: bool,
    calls: seq<StoreCall>)

  // ---------------------------------------------------------------------
  // Store operations, each with the effect the component relies on.

  function CountOrZero(counts: DiceCounts, id: seq<char>): nat {
    if id in counts then counts[id] else 0
  }

  /** `n` more dice of kind `id`; an absent id counts as 0. */
  function AddCount(counts: DiceCounts, id: seq<char>, n: nat): (r: DiceCounts)
    ensures n > 0 ==> r.Keys == counts.Keys + {id} && r[id] == CountOrZero(counts, id) + n
    ensures forall k :: k in counts && k != id ==> k in r && r[k] == counts[k]
    ensures n == 0 ==> r == counts
  {
    if n == 0 then counts else counts[id := CountOrZero(counts, id) + n]
  }

  function Incremented(st: State, id: seq<char>): State {
    st.(counts := AddCount(st.counts, id, 1), calls := st.calls + [IncrementDieCount(id)])
  }

  function CountsReset(st: State): State {
    st.(counts := st.defaultCounts, calls := st.calls + [ResetDiceCounts])
  }

  function BonusSet(st: State, bonus: int): State {
    st.(bonus := bonus, calls := st.calls + [SetDiceBonus(bonus)])
  }

  function AdvantageSet(st: State, advantage: Option<Advantage>): State {
    st.(advantage := advantage, calls := st.calls + [SetDiceAdvantage(advantage)])
  }

  function RollStarted(st: State, request: RollRequest): State {
    st.(roll := Some(request), calls := st.calls + [StartRoll(request)])
  }

  function RollPushed(st: State, entry: HistoryEntry): State {
    st.(recentRolls := st.recentRolls + [entry], calls := st.calls + [PushRecentRoll(entry)])
  }

  function RollCleared(st: State): State {
    st.(roll := None, rollValues := map[], calls := st.calls + [ClearRoll])
  }

  function Notified(st: State, n: Notification): State {
    st.(notifications := st.notifications + [n])
  }

  // ---------------------------------------------------------------------
  // Derived values the component computes.

  /** `diceSet.id !== "all" ? diceSet.id : 'GALAXY_STANDARD'`. */
  function DiceSetId(setId: seq<char>): (r: seq<char>)
    ensures setId != "all" ==> r == setId
    ensures setId == "all" ==> r == "GALAXY_STANDARD"
  {
    if setId != "all" then setId else "GALAXY_STANDARD"
  }

  /** `${diceSetId}_D${sides}`: the dice set id, then `_D`, then the
      decimal numeral of the side count, which reads back as that count. */
  function DieId(diceSetId: seq<char>, sides: nat): (id: seq<char>)
    ensures |id| > |diceSetId| + 2
    ensures id[..|diceSetId|] == diceSetId && id[|diceSetId|..|diceSetId| + 2] == "_D"
    ensures AllDigits(id[|diceSetId| + 2..]) && Value(id[|diceSetId| + 2..]) == sides
  {
    var id := diceSetId + "_D" + Numeral(sides);
    assert id[|diceSetId| + 2..] == Numeral(sides);
    ValueOfNumeral(sides);
    id
  }

  /** The text of the notification for input that does not parse. */
  function ErrorMessage(input: seq<char>): (m: seq<char>)
    ensures |m| == |input| + 30 && m[29..29 + |input|] == input
    ensures m[..29] == "Error: Incorrect roll input \"" && m[|m| - 1] == '"'
  {
    var prefix := "Error: Incorrect roll input \"";
    assert |prefix| == 29;
    assert (prefix + input + "\"")[29..29 + |input|] == input;
    prefix + input + "\""
  }

  /** `finishedRolling`: no roll values at all, or none of them `null`. */
  predicate FinishedRolling(values: map<seq<char>, Option<int>>): (b: bool)
    ensures b <==> forall id :: id in values ==> values[id].Some?
  {
    if |values| == 0 then true else forall v :: v in values.Values ==> v.Some?
  }

  /** `hasDice`: some default count differs from the current count of its
      id (an id missing from `counts` differs from any count). */
  predicate HasDice(counts: DiceCounts, defaultCounts: DiceCounts): (b: bool)
    ensures counts == defaultCounts ==> !b
    ensures b <==> exists id :: id in defaultCounts && (id !in counts || counts[id] != defaultCounts[id])
  {
    !(forall id :: id in defaultCounts ==> id in counts && counts[id] == defaultCounts[id])
  }

  /** The `rolledDiceById` record `handleRoll` builds: each id of `counts`
      with its die from `diceById`. */
  function RolledDiceById(counts: DiceCounts, diceById: map<seq<char>, Die>): (r: map<seq<char>, Option<Die>>)
    ensures r.Keys == counts.Keys
    ensures forall id :: id in r ==> r[id] == if id in diceById then Some(diceById[id]) else None
  {
    map id | id in counts :: if id in diceById then Some(diceById[id]) else None
  }

  // ---------------------------------------------------------------------
  // The handlers.

  /** `clearRollIfNeeded`. */
  function ClearRollIfNeeded(st: State): State {
    if st.roll.Some? then RollCleared(st) else st
  }

  function IncrementedTimes(st: State, id: seq<char>, n: nat): State {
    if n == 0 then st else Incremented(IncrementedTimes(st, id, n - 1), id)
  }

  /** `prepareRoll` on the specifier text `input`. */
  function Prepared(st: State, input: seq<char>): State {
    match Parse(input)
    case None => Notified(st, Notification(ErrorMessage(input), "ERROR"))
    case Some(spec) =>
      var id := DieId(DiceSetId(st.diceSetId), spec.sides);
      BonusSet(IncrementedTimes(CountsReset(ClearRollIfNeeded(st)), id, spec.rolls), spec.modifier)
  }

  /** `handleReset`. */
  function Reset(st: State): State {
    AdvantageSet(BonusSet(CountsReset(st), 0), None)
  }

  function RequestOf(st: State): RollRequest {
    RollRequest(DiceToRoll(st.counts, st.advantage, st.diceById), st.bonus, st.hidden)
  }

  function EntryOf(st: State): HistoryEntry {
    HistoryEntry(st.advantage, st.counts, st.bonus, RolledDiceById(st.counts, st.diceById))
  }

  /** `handleRoll`. */
  function Rolled(st: State): State {
    if HasDice(st.counts, st.defaultCounts) then Reset(RollPushed(RollStarted(st, RequestOf(st)), EntryOf(st)))
    else st
  }

  /** `handleRollLaunch`. */
  function Launched(st: State, input: seq<char>): State {
    if FinishedRolling(st.rollValues) then Prepared(st, input).(inputSubmitted := true) else st
  }

  /** The effect that fires `handleRoll` once dice are pending after a submit. */
  function SubmitEffect(st: State): State {
    if HasDice(st.counts, st.defaultCounts) && st.inputSubmitted then Rolled(st.(inputSubmitted := false)) else st
  }

  /** A launch followed by the effect it schedules. */
  function LaunchedAndRolled(st: State, input: seq<char>): State {
    SubmitEffect(Launched(st, input))
  }
}
