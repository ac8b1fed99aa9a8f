/** The `parseRoll` action of the grammar: `rolls` random draws of a die with
    `sides` faces, their running total, and the modifier added at the end.
    `Math.random()` is a parameter: the value its i-th call returns during
    the parse, a real number in [0, 1). */
module DiceRolls {
  import opened Options
  import opened Grammar

  /** The object `parseRoll` returns. */
  datatype RollResult = RollResult(sides: nat, modifier: int, rolls: seq<int>, total: int)

  /** Every value the random source yields lies in [0, 1), as `Math.random()` promises. */
  ghost predicate IsUnitSource(random: nat -> real) {
    forall i :: 0.0 <= random(i) < 1.0
  }

  /** `Math.floor(u * sides) + 1`: one die face. */
  function Draw(u: real, sides: nat): (roll: int)
    requires 0.0 <= u < 1.0 && sides >= 1
    ensures 1 <= roll <= sides
  {
    var x := u * sides as real;
    assert 0.0 <= x < sides as real by {
      assert u * sides as real < 1.0 * sides as real;
    }
    x.Floor + 1
  }

  function Sum(xs: seq<int>): int {
    if xs == [] then 0 else Sum(xs[..|xs| - 1]) + xs[|xs| - 1]
  }

  /** `n` draws of a die with `sides` faces add up to between `n` and `n * sides`. */
  lemma {:induction false} SumBounds(xs: seq<int>, sides: nat)
    requires forall i :: 0 <= i < |xs| ==> 1 <= xs[i] <= sides
    ensures |xs| <= Sum(xs) <= |xs| * sides
  {
    if xs != [] {
      var init := xs[..|xs| - 1];
      SumBounds(init, sides);
      assert |xs| * sides == |init| * sides + sides;
    }
  }

  /** `parseRoll(rolls, sides, modifier)`. */
  method ParseRoll(rolls: nat, sides: nat, modifier: int, random: nat -> real) returns (result: RollResult)
    requires sides >= 1 && IsUnitSource(random)
    ensures result.sides == sides && result.modifier == modifier
    ensures |result.rolls| == rolls
    ensures forall i :: 0 <= i < rolls ==> result.rolls[i] == Draw(random(i), sides)
    ensures forall i :: 0 <= i < rolls ==> 1 <= result.rolls[i] <= sides
    ensures result.total == Sum(result.rolls) + modifier
    ensures rolls <= result.total - modifier <= rolls * sides
  {
    var total := 0;
    var theRolls: seq<int> := [];
    var i := 0;
    while i < rolls
      invariant 0 <= i <= rolls && |theRolls| == i
      invariant forall k :: 0 <= k < i ==> theRolls[k] == Draw(random(k), sides)
      invariant total == Sum(theRolls)
    {
      var roll := Draw(random(i), sides);
      assert (theRolls + [roll])[..i] == theRolls;
      theRolls := theRolls + [roll];
      total := total + roll;
      i := i + 1;
    }
    SumBounds(theRolls, sides);
    result := RollResult(sides, modifier, theRolls, total + modifier);
  }

  /** `parser.parse(input)`: the grammar's verdict and, on success, the
      action's draws and total. */
  method ParseSpecifier(input: seq<char>, random: nat -> real) returns (r: Option<RollResult>)
    requires IsUnitSource(random)
    ensures r.None? <==> Parse(input).None?
    ensures r.Some? ==> var spec := Parse(input).value;
      && spec.sides >= 1
      && r.value.sides == spec.sides && r.value.modifier == spec.modifier
      && |r.value.rolls| == spec.rolls
      && (forall i :: 0 <= i < spec.rolls ==> r.value.rolls[i] == Draw(random(i), spec.sides))
      && r.value.total == Sum(r.value.rolls) + spec.modifier
      && spec.rolls <= r.value.total - spec.modifier <= spec.rolls * spec.sides
  {
    var parsed := Parse(input);
    if parsed.None? {
      r := None;
    } else {
      var spec := parsed.value;
      StandardSidesAtLeastTwo(spec.sides);
      var result := ParseRoll(spec.rolls, spec.sides, spec.modifier, random);
      r := Some(result);
    }
  }
}
