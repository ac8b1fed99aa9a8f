/** The RollSpecifier component and the store state it works on, updated in
    place: each store operation and each handler is a method whose effect
    on the state is the function of the same name in RollControls. */
module Component {
  import opened Options
  import opened DiceRolls
  import opened RollControls

  /** The loop of `handleRoll` that builds `rolledDiceById` from the ids of
      `counts`. */
  method CollectRolledDice(counts: DiceCounts, diceById: map<seq<char>, Die>)
    returns (rolled: map<seq<char>, Option<Die>>)
    ensures rolled.Keys == counts.Keys
    ensures forall id :: id in rolled ==> rolled[id] == if id in diceById then Some(diceById[id]) else None
    ensures rolled == RolledDiceById(counts, diceById)
  {
    rolled := map[];
    var ids := counts.Keys;
    while ids != {}
      invariant ids <= counts.Keys
      invariant rolled.Keys == counts.Keys - ids
      invariant forall id :: id in rolled ==> rolled[id] == if id in diceById then Some(diceById[id]) else None
      decreases ids
    {
      var id :| id in ids;
      if id !in rolled {
        rolled := rolled[id := if id in diceById then Some(diceById[id]) else None];
      }
      ids := ids - {id};
    }
  }

  class RollSpecifier {
    // dice-controls store
    var counts: DiceCounts
    var defaultCounts: DiceCounts
    var bonus: int
    var advantage: Option<Advantage>
    var hidden: bool
    var diceById: map<seq<char>, Die>
    var diceSetId: seq<char>
    // dice-roll store
    var roll: Option<RollRequest>
    var rollValues: map<seq<char>, Option<int>>
    // history store
    var recentRolls: seq<HistoryEntry>
    // host notifications shown
    var notifications: seq<Notification>
    // component state
    var inputSubmitted: bool
    // store operations called, in order
    var calls: seq<StoreCall>

    function Snapshot(): State
      reads this
    {
      State(counts, defaultCounts, bonus, advantage, hidden, diceById, diceSetId, roll, rollValues,
            recentRolls, notifications, inputSubmitted, calls)
    }

    constructor (init: State)
      ensures Snapshot() == init
    {
      counts, defaultCounts, bonus, advantage, hidden := init.counts, init.defaultCounts, init.bonus, init.advantage, init.hidden;
      diceById, diceSetId, roll, rollValues := init.diceById, init.diceSetId, init.roll, init.rollValues;
      recentRolls, notifications, inputSubmitted, calls := init.recentRolls, init.notifications, init.inputSubmitted, init.calls;
    }

    // -------------------------------------------------------------------
    // Store operations

    method IncrementDieCount(id: seq<char>)
      modifies this
      ensures Snapshot() == Incremented(old(Snapshot()), id)
    {
      counts := AddCount(counts, id, 1);
      calls := calls + [StoreCall.IncrementDieCount(id)];
    }

    method ResetDiceCounts()
      modifies this
      ensures Snapshot() == CountsReset(old(Snapshot()))
    {
      counts := defaultCounts;
      calls := calls + [StoreCall.ResetDiceCounts];
    }

    method SetDiceBonus(value: int)
      modifies this
      ensures Snapshot() == BonusSet(old(Snapshot()), value)
    {
      bonus := value;
      calls := calls + [StoreCall.SetDiceBonus(value)];
    }

    method SetDiceAdvantage(value: Option<Advantage>)
      modifies this
      ensures Snapshot() == AdvantageSet(old(Snapshot()), value)
    {
      advantage := value;
      calls := calls + [StoreCall.SetDiceAdvantage(value)];
    }

    method StartRoll(request: RollRequest)
      modifies this
      ensures Snapshot() == RollStarted(old(Snapshot()), request)
    {
      roll := Some(request);
      calls := calls + [StoreCall.StartRoll(request)];
    }

    method PushRecentRoll(entry: HistoryEntry)
      modifies this
      ensures Snapshot() == RollPushed(old(Snapshot()), entry)
    {
      recentRolls := recentRolls + [entry];
      calls := calls + [StoreCall.PushRecentRoll(entry)];
    }

    method ClearRoll()
      modifies this
      ensures Snapshot() == RollCleared(old(Snapshot()))
    {
      roll := None;
      rollValues := map[];
      calls := calls + [StoreCall.ClearRoll];
    }

    method ShowNotification(message: seq<char>, variant: seq<char>)
      modifies this
      ensures Snapshot() == Notified(old(Snapshot()), Notification(message, variant))
    {
      notifications := notifications + [Notification(message, variant)];
    }

    // -------------------------------------------------------------------
    // Handlers

    method ClearRollIfNeeded()
      modifies this
      ensures Snapshot() == RollControls.ClearRollIfNeeded(old(Snapshot()))
    {
      if roll.Some? {
        ClearRoll();
      }
    }

    method PrepareRoll(input: seq<char>, random: nat -> real)
      requires IsUnitSource(random)
      modifies this
      ensures Snapshot() == Prepared(old(Snapshot()), input)
    {
      var rollSpec := ParseSpecifier(input, random);
      if rollSpec.None? {
        ShowNotification(ErrorMessage(input), "ERROR");
        return;
      }
      ClearRollIfNeeded();
      ResetDiceCounts();
      var id := DieId(DiceSetId(diceSetId), rollSpec.value.sides);
      ghost var reset := Snapshot();
      var i := 0;
      while i < |rollSpec.value.rolls|
        invariant 0 <= i <= |rollSpec.value.rolls|
        invariant Snapshot() == IncrementedTimes(reset, id, i)
      {
        IncrementDieCount(id);
        i := i + 1;
      }
      SetDiceBonus(rollSpec.value.modifier);
    }

    method HandleReset()
      modifies this
      ensures Snapshot() == Reset(old(Snapshot()))
    {
      ResetDiceCounts();
      SetDiceBonus(0);
      SetDiceAdvantage(None);
    }

    method HandleRoll()
      modifies this
      ensures Snapshot() == Rolled(old(Snapshot()))
    {
      if HasDice(counts, defaultCounts) {
        StartRoll(RollRequest(DiceToRoll(counts, advantage, diceById), bonus, hidden));
        var rolledDiceById := CollectRolledDice(counts, diceById);
        PushRecentRoll(HistoryEntry(advantage, counts, bonus, rolledDiceById));
        HandleReset();
      }
    }

    method HandleRollLaunch(input: seq<char>, random: nat -> real)
      requires IsUnitSource(random)
      modifies this
      ensures Snapshot() == Launched(old(Snapshot()), input)
    {
      if FinishedRolling(rollValues) {
        PrepareRoll(input, random);
        inputSubmitted := true;
      }
    }

    /** The effect that runs `handleRoll` once a submitted specifier has left
        dice pending. */
    method RunSubmitEffect()
      modifies this
      ensures Snapshot() == SubmitEffect(old(Snapshot()))
    {
      if HasDice(counts, defaultCounts) && inputSubmitted {
        inputSubmitted := false;
        HandleRoll();
      }
    }
  }
}
