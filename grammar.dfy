/** The roll-specifier grammar of src/controls/RollSpecifier.tsx, read as a
    parsing expression grammar (PEG): every rule is a function from an input
    and a position to the value of its action and the position after the
    match, or `None` when the rule fails. Repetition is greedy and ordered
    choice commits to the first alternative that matches, with no
    backtracking into the others. */
module Grammar {
  import opened Options
  import opened Decimal

  /** What the `dice_roll` action hands to `parseRoll`: the roll count
      (`rolls || 1`), the number of sides and the modifier (`modifier || 0`). */
  datatype RollSpec = RollSpec(rolls: nat, sides: nat, modifier: int)

  /** A successful match: the rule's value and the position after it. */
  datatype Match<+T> = Match(value: T, end: nat)

  /** The alternatives of `dice_sides`, in the grammar's order. */
  const SidesAlternatives: seq<seq<char>> := ["100", "20", "12", "10", "8", "6", "4", "2"]

  /** The face counts the grammar admits. */
  const StandardSides: set<nat> := {100, 20, 12, 10, 8, 6, 4, 2}

  predicate IsWhitespace(c: char) {
    c == ' ' || c == '\t' || c == '\r' || c == '\n'
  }

  /** Every character of `s` from `i` up to `j` is whitespace. */
  predicate WhitespaceBetween(s: seq<char>, i: nat, j: nat)
    requires i <= j <= |s|
  {
    forall x :: i <= x < j ==> IsWhitespace(s[x])
  }

  predicate IsDiceMarker(c: char) {
    c == 'd' || c == 'D'
  }

  predicate IsSign(c: char) {
    c == '+' || c == '-'
  }

  /** Rule `_`: `[ \t\r\n]*`, which always succeeds and consumes the longest
      run of whitespace starting at `i`. */
  function Whitespace(s: seq<char>, i: nat): (j: nat)
    requires i <= |s|
    ensures i <= j <= |s|
    ensures WhitespaceBetween(s, i, j)
    ensures j == |s| || !IsWhitespace(s[j])
    decreases |s| - i
  {
    if i < |s| && IsWhitespace(s[i]) then Whitespace(s, i + 1) else i
  }

  /** The end of the longest run of digits starting at `i`. */
  function DigitsEnd(s: seq<char>, i: nat): (j: nat)
    requires i <= |s|
    ensures i <= j <= |s|
    ensures AllDigits(s[i..j])
    ensures j == |s| || !IsDigit(s[j])
    decreases |s| - i
  {
    if i < |s| && IsDigit(s[i]) then DigitsEnd(s, i + 1) else i
  }

  /** Rule `number`: `[0-9]+`, valued by `parseInt(digits, 10)`. */
  function Number(s: seq<char>, i: nat): (r: Option<Match<nat>>)
    requires i <= |s|
    ensures r.Some? <==> i < |s| && IsDigit(s[i])
    ensures r.Some? ==> i < r.value.end <= |s| && AllDigits(s[i..r.value.end])
    ensures r.Some? ==> (r.value.end == |s| || !IsDigit(s[r.value.end]))
    ensures r.Some? ==> r.value.value == Value(s[i..r.value.end])
  {
    var j := DigitsEnd(s, i);
    if j == i then None else Some(Match(Value(s[i..j]), j))
  }

  /** The index of the first alternative of `dice_sides`, from `k` on, that
      is a prefix of the input at `i`. */
  function FirstAlternative(s: seq<char>, i: nat, k: nat): (r: Option<nat>)
    requires i <= |s| && k <= |SidesAlternatives|
    ensures r.Some? ==> k <= r.value < |SidesAlternatives| && SidesAlternatives[r.value] <= s[i..]
    ensures r.Some? ==> forall j :: k <= j < r.value ==> !(SidesAlternatives[j] <= s[i..])
    ensures r.None? ==> forall j :: k <= j < |SidesAlternatives| ==> !(SidesAlternatives[j] <= s[i..])
    decreases |SidesAlternatives| - k
  {
    if k == |SidesAlternatives| then None
    else if SidesAlternatives[k] <= s[i..] then Some(k)
    else FirstAlternative(s, i, k + 1)
  }

  /** Every standard face count is a real die: at least two faces. */
  lemma StandardSidesAtLeastTwo(n: nat)
    requires n in StandardSides
    ensures n >= 2
  {
  }

  /** Rule `dice_sides`: `"100" / "20" / "12" / "10" / "8" / "6" / "4" / "2"`,
      valued by `parseInt` of the matched text. */
  function DiceSides(s: seq<char>, i: nat): (r: Option<Match<nat>>)
    requires i <= |s|
    ensures r.Some? ==> r.value.value in StandardSides
    ensures r.Some? <==> FirstAlternative(s, i, 0).Some?
    ensures r.Some? ==> var k := FirstAlternative(s, i, 0).value;
      r.value.end == i + |SidesAlternatives[k]| <= |s| && r.value.value == SidesValue(k)
  {
    match FirstAlternative(s, i, 0)
    case None => None
    case Some(k) =>
      Some(Match(SidesValue(k), i + |SidesAlternatives[k]|))
  }

  /** The value `parseInt` gives the text of alternative `k` of `dice_sides`. */
  function SidesValue(k: nat): (v: nat)
    requires k < |SidesAlternatives|
    ensures v in StandardSides && Numeral(v) == SidesAlternatives[k]
  {
    AlternativeValues(k);
    Value(SidesAlternatives[k])
  }

  /** Distinct alternatives of `dice_sides` have distinct values, so the
      face count a match yields names the alternative it took. */
  lemma SidesValuesDistinct(j: nat, k: nat)
    requires j < |SidesAlternatives| && k < |SidesAlternatives| && j != k
    ensures SidesValue(j) != SidesValue(k)
  {
    assert SidesAlternatives[j] != SidesAlternatives[k];
  }

  /** Every alternative of `dice_sides` is a digit run whose value is a
      standard face count written without leading zeros. */
  lemma AlternativeValues(k: nat)
    requires k < |SidesAlternatives|
    ensures AllDigits(SidesAlternatives[k]) && |SidesAlternatives[k]| >= 1
    ensures Value(SidesAlternatives[k]) in StandardSides
    ensures Numeral(Value(SidesAlternatives[k])) == SidesAlternatives[k]
  {
    var v: nat := if k == 0 then 100 else if k == 1 then 20 else if k == 2 then 12 else if k == 3 then 10
                  else if k == 4 then 8 else if k == 5 then 6 else if k == 6 then 4 else 2;
    if k == 0 {
      assert Numeral(1) == "1" && Numeral(10) == "10";
    } else if k == 1 {
      assert Numeral(2) == "2";
    } else if k == 2 {
      assert Numeral(1) == "1";
    } else if k == 3 {
      assert Numeral(1) == "1";
    }
    assert Numeral(v) == SidesAlternatives[k];
    ValueOfNumeral(v);
  }

  /** The position after the optional sign of a modifier starting at `i`. */
  function SignEnd(s: seq<char>, i: nat): nat
    requires i <= |s|
  {
    if i < |s| && IsSign(s[i]) then i + 1 else i
  }

  /** Rule `modifier`: `("+" / "-")? _ number`, negated when the sign is "-".
      With `h` the first position past the optional sign and its whitespace,
      it matches exactly when a digit is at `h`, takes the whole digit run
      from `h`, and is valued by that run, negated after a minus sign. */
  function Modifier(s: seq<char>, i: nat): (r: Option<Match<int>>)
    requires i <= |s|
    ensures var h := Whitespace(s, SignEnd(s, i));
      r.Some? <==> h < |s| && IsDigit(s[h])
    ensures var h := Whitespace(s, SignEnd(s, i));
      r.Some? ==> && h < r.value.end <= |s| && AllDigits(s[h..r.value.end])
                  && (r.value.end == |s| || !IsDigit(s[r.value.end]))
                  && r.value.value == (if i < |s| && s[i] == '-' then -(Value(s[h..r.value.end]) as int)
                                       else Value(s[h..r.value.end]) as int)
  {
    var negative := i < |s| && s[i] == '-';
    match Number(s, Whitespace(s, SignEnd(s, i)))
    case None => None
    case Some(n) => Some(Match(if negative then -(n.value as int) else n.value as int, n.end))
  }

  /** Rule `dice_roll`: `_ number? _ "d"i _ dice_sides _ modifier? _`, with
      its action's arguments `rolls || 1`, `sides`, `modifier || 0`. */
  function DiceRoll(s: seq<char>): (r: Option<Match<RollSpec>>)
    ensures r.Some? ==> r.value.end <= |s|
    ensures r.Some? ==> r.value.value.rolls >= 1 && r.value.value.sides in StandardSides
  {
    var p0 := Whitespace(s, 0);
    var rolls := Number(s, p0);
    var count := if rolls.None? || rolls.value.value == 0 then 1 else rolls.value.value;
    AfterCount(s, count, Whitespace(s, if rolls.Some? then rolls.value.end else p0))
  }

  /** `dice_roll` from the marker on, once the roll count is known. */
  function AfterCount(s: seq<char>, count: nat, i: nat): (r: Option<Match<RollSpec>>)
    requires i <= |s| && count >= 1
    ensures r.Some? ==> r.value.end <= |s|
    ensures r.Some? ==> r.value.value.rolls == count && r.value.value.sides in StandardSides
  {
    if i < |s| && IsDiceMarker(s[i]) then
      match DiceSides(s, Whitespace(s, i + 1))
      case None => None
      case Some(sides) => Some(AfterSides(s, count, sides.value, Whitespace(s, sides.end)))
    else
      None
  }

  /** `dice_roll` from the optional modifier on: it never fails, because
      `modifier?` matches the empty string when `modifier` does not match. */
  function AfterSides(s: seq<char>, count: nat, sides: nat, i: nat): (r: Match<RollSpec>)
    requires i <= |s|
    ensures i <= r.end <= |s| && (r.end == |s| || !IsWhitespace(s[r.end]))
    ensures r.value.rolls == count && r.value.sides == sides
    ensures var h := Whitespace(s, SignEnd(s, i));
      !(h < |s| && IsDigit(s[h])) ==> r.value.modifier == 0 && WhitespaceBetween(s, i, r.end)
    ensures Modifier(s, i).Some? ==>
      && r.value.modifier == Modifier(s, i).value.value
      && Modifier(s, i).value.end <= r.end && WhitespaceBetween(s, Modifier(s, i).value.end, r.end)
  {
    var modifier := Modifier(s, i);
    var rest := if modifier.Some? then modifier.value.end else i;
    Match(RollSpec(count, sides, if modifier.None? then 0 else modifier.value.value), Whitespace(s, rest))
  }

  /** `parser.parse`: the start rule must match the whole input. */
  function Parse(s: seq<char>): (r: Option<RollSpec>)
    ensures r.Some? ==> r.value.rolls >= 1 && r.value.sides in StandardSides
  {
    match DiceRoll(s)
    case Some(m) => if m.end == |s| then Some(m.value) else None
    case None => None
  }
}
