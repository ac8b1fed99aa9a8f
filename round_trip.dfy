/** Writing a roll request as `{rolls}d{sides}{+|-}{|modifier|}` and parsing
    it back gives the same request, and the inputs the grammar is known for
    parse (or fail) as expected. */
module RoundTrip {
  import opened Options
  import opened Decimal
  import opened Grammar
  import opened AcceptedShape

  function Abs(m: int): nat {
    if m < 0 then -m else m
  }

  /** The canonical text of a roll request. */
  function Format(spec: RollSpec): seq<char> {
    Numeral(spec.rolls) + "d" + Numeral(spec.sides) + (if spec.modifier < 0 then "-" else "+") + Numeral(Abs(spec.modifier))
  }

  /** The alternative of `dice_sides` that spells a standard face count. */
  lemma AlternativeFor(sides: nat) returns (k: nat)
    requires sides in StandardSides
    ensures k < |SidesAlternatives| && SidesAlternatives[k] == Numeral(sides)
  {
    k := if sides == 100 then 0 else if sides == 20 then 1 else if sides == 12 then 2 else if sides == 10 then 3
         else if sides == 8 then 4 else if sides == 6 then 5 else if sides == 4 then 6 else 7;
    AlternativeValues(k);
    assert Numeral(SidesValue(k)) == SidesAlternatives[k];
  }

  /** Followed by a sign, an alternative of `dice_sides` is the first one
      that matches: no earlier alternative is a prefix of it. */
  lemma NoEarlierAlternative(k: nat, rest: seq<char>)
    requires k < |SidesAlternatives| && |rest| >= 1 && IsSign(rest[0])
    ensures forall j :: 0 <= j < k ==> !(SidesAlternatives[j] <= SidesAlternatives[k] + rest)
  {
    var t := SidesAlternatives[k] + rest;
    if k == 1 {
      assert t[0] == SidesAlternatives[k][0] != SidesAlternatives[0][0];
      assert forall j :: 0 <= j < 1 ==> !(SidesAlternatives[j] <= t);
    } else if k == 2 {
      assert t[1] == SidesAlternatives[k][1] != SidesAlternatives[0][1];
      assert t[0] == SidesAlternatives[k][0] != SidesAlternatives[1][0];
      assert forall j :: 0 <= j < 2 ==> !(SidesAlternatives[j] <= t);
    } else if k == 3 {
      assert t[2] == rest[0] != SidesAlternatives[0][2];
      assert t[0] == SidesAlternatives[k][0] != SidesAlternatives[1][0];
      assert t[1] == SidesAlternatives[k][1] != SidesAlternatives[2][1];
      assert forall j :: 0 <= j < 3 ==> !(SidesAlternatives[j] <= t);
    } else if k == 4 {
      assert t[0] == SidesAlternatives[k][0] != SidesAlternatives[0][0];
      assert t[0] == SidesAlternatives[k][0] != SidesAlternatives[1][0];
      assert t[0] == SidesAlternatives[k][0] != SidesAlternatives[2][0];
      assert t[0] == SidesAlternatives[k][0] != SidesAlternatives[3][0];
      assert forall j :: 0 <= j < 4 ==> !(SidesAlternatives[j] <= t);
    } else if k == 5 {
      assert t[0] == SidesAlternatives[k][0] != SidesAlternatives[0][0];
      assert t[0] == SidesAlternatives[k][0] != SidesAlternatives[1][0];
      assert t[0] == SidesAlternatives[k][0] != SidesAlternatives[2][0];
      assert t[0] == SidesAlternatives[k][0] != SidesAlternatives[3][0];
      assert t[0] == SidesAlternatives[k][0] != SidesAlternatives[4][0];
      assert forall j :: 0 <= j < 5 ==> !(SidesAlternatives[j] <= t);
    } else if k == 6 {
      assert t[0] == SidesAlternatives[k][0] != SidesAlternatives[0][0];
      assert t[0] == SidesAlternatives[k][0] != SidesAlternatives[1][0];
      assert t[0] == SidesAlternatives[k][0] != SidesAlternatives[2][0];
      assert t[0] == SidesAlternatives[k][0] != SidesAlternatives[3][0];
      assert t[0] == SidesAlternatives[k][0] != SidesAlternatives[4][0];
      assert t[0] == SidesAlternatives[k][0] != SidesAlternatives[5][0];
      assert forall j :: 0 <= j < 6 ==> !(SidesAlternatives[j] <= t);
    } else if k == 7 {
      assert t[0] == SidesAlternatives[k][0] != SidesAlternatives[0][0];
      assert t[1] == rest[0] != SidesAlternatives[1][1];
      assert t[0] == SidesAlternatives[k][0] != SidesAlternatives[2][0];
      assert t[0] == SidesAlternatives[k][0] != SidesAlternatives[3][0];
      assert t[0] == SidesAlternatives[k][0] != SidesAlternatives[4][0];
      assert t[0] == SidesAlternatives[k][0] != SidesAlternatives[5][0];
      assert t[0] == SidesAlternatives[k][0] != SidesAlternatives[6][0];
      assert forall j :: 0 <= j < 7 ==> !(SidesAlternatives[j] <= t);
    }
  }

  lemma CountPiece(count: seq<char>, rest: seq<char>)
    requires AllDigits(count)
    ensures CountShaped(count + rest, 0, |count|, |count|)
    ensures (count + rest)[0..|count|] == count
  {
    var s := count + rest;
    assert s[..0] == [] && s[0..|count|] == count && s[|count|..|count|] == [];
  }

  lemma SidesPiece(prefix: seq<char>, k: nat, rest: seq<char>)
    requires k < |SidesAlternatives| && |rest| >= 1 && IsSign(rest[0])
    ensures SidesShaped(prefix + "d" + SidesAlternatives[k] + rest, |prefix|, |prefix| + 1, k)
  {
    var s := prefix + "d" + SidesAlternatives[k] + rest;
    var c := |prefix|;
    assert s[c] == 'd' && s[c + 1..c + 1] == [];
    assert s[c + 1..] == SidesAlternatives[k] + rest;
    NoEarlierAlternative(k, rest);
  }

  lemma ModifierPiece(prefix: seq<char>, sign: char, digits: seq<char>)
    requires IsSign(sign) && AllDigits(digits) && |digits| >= 1
    ensures var s := prefix + [sign] + digits;
      ModifierShaped(s, |prefix|, |prefix|, |prefix| + 1, |s|) && s[|prefix| + 1..|s|] == digits && s[|prefix|] == sign
  {
    var s := prefix + [sign] + digits;
    var f := |prefix|;
    assert s[f..f] == [] && s[f + 1..f + 1] == [] && s[f + 1..|s|] == digits && s[|s|..] == [];
  }

  /** The count digits open the canonical text, the marker follows them. */
  lemma FormatCount(spec: RollSpec)
    ensures var c := |Numeral(spec.rolls)|;
      CountShaped(Format(spec), 0, c, c) && Format(spec)[0..c] == Numeral(spec.rolls)
  {
    var rest := "d" + Numeral(spec.sides) + (if spec.modifier < 0 then "-" else "+") + Numeral(Abs(spec.modifier));
    assert Format(spec) == Numeral(spec.rolls) + rest;
    CountPiece(Numeral(spec.rolls), rest);
  }

  /** The side count follows the marker directly, as alternative `k`. */
  lemma FormatSides(spec: RollSpec, k: nat)
    requires k < |SidesAlternatives| && SidesAlternatives[k] == Numeral(spec.sides)
    ensures var c := |Numeral(spec.rolls)|; SidesShaped(Format(spec), c, c + 1, k)
  {
    var rest := (if spec.modifier < 0 then "-" else "+") + Numeral(Abs(spec.modifier));
    assert Format(spec) == Numeral(spec.rolls) + "d" + SidesAlternatives[k] + rest;
    SidesPiece(Numeral(spec.rolls), k, rest);
  }

  /** The sign follows the side count directly, the modifier digits close
      the text. */
  lemma FormatModifier(spec: RollSpec)
    ensures var s, f := Format(spec), |Numeral(spec.rolls)| + 1 + |Numeral(spec.sides)|;
      && ModifierShaped(s, f, f, f + 1, |s|)
      && s[f] == (if spec.modifier < 0 then '-' else '+')
      && s[f + 1..|s|] == Numeral(Abs(spec.modifier))
  {
    var prefix := Numeral(spec.rolls) + "d" + Numeral(spec.sides);
    var sign := if spec.modifier < 0 then '-' else '+';
    assert Format(spec) == prefix + [sign] + Numeral(Abs(spec.modifier));
    ModifierPiece(prefix, sign, Numeral(Abs(spec.modifier)));
  }

  /** Where the pieces of the canonical text of `spec` lie: the count
      digits first, the marker after them, then the side count, the sign and
      the modifier digits. */
  lemma FormatShaped(spec: RollSpec) returns (L: Layout)
    requires spec.rolls >= 1 && spec.sides in StandardSides
    ensures Shaped(Format(spec), L)
    ensures L.countStart == 0 && Format(spec)[0..L.countEnd] == Numeral(spec.rolls)
    ensures SidesAlternatives[L.alternative] == Numeral(spec.sides)
    ensures L.digitsStart == L.modifierStart + 1 && L.modifierEnd == |Format(spec)|
    ensures Format(spec)[L.modifierStart] == (if spec.modifier < 0 then '-' else '+')
    ensures Format(spec)[L.digitsStart..L.modifierEnd] == Numeral(Abs(spec.modifier))
  {
    var k := AlternativeFor(spec.sides);
    var c := |Numeral(spec.rolls)|;
    var f := c + 1 + |Numeral(spec.sides)|;
    L := Layout(0, c, c, c + 1, k, f, f + 1, |Format(spec)|);
    FormatCount(spec);
    FormatSides(spec, k);
    FormatModifier(spec);
  }

  /** The values read back from that layout are those of `spec`. */
  lemma FormatLayout(spec: RollSpec) returns (L: Layout)
    requires spec.rolls >= 1 && spec.sides in StandardSides
    ensures Shaped(Format(spec), L) && SpecOf(Format(spec), L) == spec
  {
    L := FormatShaped(spec);
    var s := Format(spec);
    assert CountOf(s[L.countStart..L.countEnd]) == spec.rolls by {
      ValueOfNumeral(spec.rolls);
    }
    assert SidesValue(L.alternative) == spec.sides by {
      ValueOfNumeral(spec.sides);
    }
    assert ModifierOf(s, L.modifierStart, L.digitsStart, L.modifierEnd) == spec.modifier by {
      ValueOfNumeral(Abs(spec.modifier));
    }
  }

  /** Parsing the canonical text of any request the grammar can produce gives
      that request back. */
  lemma ParseFormat(spec: RollSpec)
    requires spec.rolls >= 1 && spec.sides in StandardSides
    ensures Parse(Format(spec)) == Some(spec)
  {
    var L := FormatLayout(spec);
    ParseComplete(Format(spec), L);
  }

  // Inputs the grammar is known for.

  lemma ParseWithCountAndModifier()
    ensures Parse("2d20+3") == Some(RollSpec(2, 20, 3))
  {
    assert Format(RollSpec(2, 20, 3)) == "2d20+3" by {
      assert Numeral(20) == "20";
    }
    ParseFormat(RollSpec(2, 20, 3));
  }

  lemma ParseTwoD6PlusOne()
    ensures Parse("2d6+1") == Some(RollSpec(2, 6, 1))
  {
    assert Format(RollSpec(2, 6, 1)) == "2d6+1" by {
      assert Numeral(6) == "6" && Numeral(2) == "2" && Numeral(1) == "1";
    }
    ParseFormat(RollSpec(2, 6, 1));
  }

  lemma ParseWithoutCount()
    ensures Parse("d6") == Some(RollSpec(1, 6, 0))
  {
    var s := "d6";
    assert CountShaped(s, 0, 0, 0) && ModifierShaped(s, 2, 2, 2, 2);
    assert FirstAlternative(s, 1, 0) == Some(5) by {
      var t := s[1..];
      assert t == "6";
      assert t[0] != SidesAlternatives[0][0];
      assert t[0] != SidesAlternatives[1][0];
      assert t[0] != SidesAlternatives[2][0];
      assert t[0] != SidesAlternatives[3][0];
      assert t[0] != SidesAlternatives[4][0];
      assert SidesAlternatives[5] <= t;
      FirstAlternativeIs(s, 1, 5, 0);
    }
    var L := Layout(0, 0, 0, 1, 5, 2, 2, 2);
    assert Shaped(s, L);
    assert SpecOf(s, L) == RollSpec(1, 6, 0) by {
      assert s[0..0] == [];
      assert SidesValue(5) == 6;
    }
    ParseComplete(s, L);
  }

  lemma ParseUpperCaseSpaced()
    ensures Parse("1D8 - 2") == Some(RollSpec(1, 8, -2))
  {
    var s := "1D8 - 2";
    assert CountShaped(s, 0, 1, 1) by {
      assert s[0..1] == "1";
    }
    assert FirstAlternative(s, 2, 0) == Some(4) by {
      var t := s[2..];
      assert t == "8 - 2";
      assert t[0] != SidesAlternatives[0][0];
      assert t[0] != SidesAlternatives[1][0];
      assert t[0] != SidesAlternatives[2][0];
      assert t[0] != SidesAlternatives[3][0];
      assert SidesAlternatives[4] <= t;
      FirstAlternativeIs(s, 2, 4, 0);
    }
    assert ModifierShaped(s, 3, 4, 6, 7) by {
      assert s[3..4] == " " && s[5..6] == " " && s[6..7] == "2";
    }
    var L := Layout(0, 1, 1, 2, 4, 4, 6, 7);
    assert Shaped(s, L);
    assert SpecOf(s, L) == RollSpec(1, 8, -2) by {
      assert s[0..1] == "1" && s[6..7] == "2" && s[4] == '-';
      assert SidesValue(4) == 8;
    }
    ParseComplete(s, L);
  }

  /** `rolls || 1`: a count written as 0 is one roll. */
  lemma ParseZeroCount()
    ensures Parse(" 0d4 ") == Some(RollSpec(1, 4, 0))
  {
    var s := " 0d4 ";
    assert CountShaped(s, 1, 2, 2) by {
      assert s[..1] == " " && s[1..2] == "0";
    }
    assert FirstAlternative(s, 3, 0) == Some(6) by {
      var t := s[3..];
      assert t == "4 ";
      assert t[0] != SidesAlternatives[0][0];
      assert t[0] != SidesAlternatives[1][0];
      assert t[0] != SidesAlternatives[2][0];
      assert t[0] != SidesAlternatives[3][0];
      assert t[0] != SidesAlternatives[4][0];
      assert t[0] != SidesAlternatives[5][0];
      assert SidesAlternatives[6] <= t;
      FirstAlternativeIs(s, 3, 6, 0);
    }
    assert ModifierShaped(s, 4, 5, 5, 5) by {
      assert s[4..5] == " ";
    }
    var L := Layout(1, 2, 2, 3, 6, 5, 5, 5);
    assert Shaped(s, L);
    assert SpecOf(s, L) == RollSpec(1, 4, 0) by {
      assert s[1..2] == "0";
      assert SidesValue(6) == 4;
    }
    ParseComplete(s, L);
  }

  /** Ordered choice commits: after the marker, "25" is sides 2 and modifier 5. */
  lemma ParseCommitsToTwoSides()
    ensures Parse("1d25") == Some(RollSpec(1, 2, 5))
  {
    var s := "1d25";
    assert CountShaped(s, 0, 1, 1) by {
      assert s[0..1] == "1";
    }
    assert FirstAlternative(s, 2, 0) == Some(7) by {
      var t := s[2..];
      assert t == "25";
      assert t[0] != SidesAlternatives[0][0];
      assert t[1] != SidesAlternatives[1][1];
      assert t[0] != SidesAlternatives[2][0];
      assert t[0] != SidesAlternatives[3][0];
      assert t[0] != SidesAlternatives[4][0];
      assert t[0] != SidesAlternatives[5][0];
      assert t[0] != SidesAlternatives[6][0];
      assert SidesAlternatives[7] <= t;
      FirstAlternativeIs(s, 2, 7, 0);
    }
    assert ModifierShaped(s, 3, 3, 3, 4) by {
      assert s[3..4] == "5";
    }
    var L := Layout(0, 1, 1, 2, 7, 3, 3, 4);
    assert Shaped(s, L);
    assert SpecOf(s, L) == RollSpec(1, 2, 5) by {
      assert s[0..1] == "1" && s[3..4] == "5";
      assert SidesValue(7) == 2;
    }
    ParseComplete(s, L);
  }

  /** ... and "1000" is sides 100 and modifier 0. */
  lemma ParseCommitsToHundredSides()
    ensures Parse("1d1000") == Some(RollSpec(1, 100, 0))
  {
    var s := "1d1000";
    assert CountShaped(s, 0, 1, 1) by {
      assert s[0..1] == "1";
    }
    assert FirstAlternative(s, 2, 0) == Some(0) by {
      var t := s[2..];
      assert t == "1000";
      assert SidesAlternatives[0] <= t;
      FirstAlternativeIs(s, 2, 0, 0);
    }
    assert ModifierShaped(s, 5, 5, 5, 6) by {
      assert s[5..6] == "0";
    }
    var L := Layout(0, 1, 1, 2, 0, 5, 5, 6);
    assert Shaped(s, L);
    assert SpecOf(s, L) == RollSpec(1, 100, 0) by {
      assert s[0..1] == "1" && s[5..6] == "0";
      AlternativeValues(0);
      assert SidesValue(0) == 100;
    }
    ParseComplete(s, L);
  }

  /** A side count that is not listed is a parse failure. */
  lemma ParseRejectsUnlistedSides()
    ensures Parse("3d7") == None
  {
    var s := "3d7";
    assert Whitespace(s, 0) == 0 && DigitsEnd(s, 0) == 1 && Whitespace(s, 1) == 1 && Whitespace(s, 2) == 2;
    assert FirstAlternative(s, 2, 0) == None;
  }

  lemma ParseRejectsOneSide()
    ensures Parse("1d1") == None
  {
    var s := "1d1";
    assert Whitespace(s, 0) == 0 && DigitsEnd(s, 0) == 1 && Whitespace(s, 1) == 1 && Whitespace(s, 2) == 2;
    assert FirstAlternative(s, 2, 0) == None;
  }

  lemma ParseRejectsText()
    ensures Parse("abc") == None
  {
    var s := "abc";
    assert Whitespace(s, 0) == 0 && Number(s, 0).None?;
    assert !IsDiceMarker(s[0]) && AfterCount(s, 1, 0).None?;
  }

  /** In "1d6+", the count, the marker and the side count take "1d6". */
  lemma DanglingSignPrefix()
    ensures DiceRoll("1d6+") == Some(AfterSides("1d6+", 1, 6, 3))
  {
    var s := "1d6+";
    assert Number(s, 0) == Some(Match(1, 1)) by {
      assert DigitsEnd(s, 0) == 1;
      assert s[0..1] == "1";
    }
    assert Whitespace(s, 0) == 0 && Whitespace(s, 1) == 1 && Whitespace(s, 2) == 2 && Whitespace(s, 3) == 3;
    assert DiceSides(s, 2) == Some(Match(6, 3)) by {
      assert FirstAlternative(s, 2, 0) == Some(5);
      AlternativeValues(5);
    }
  }

  /** In "1d6+", the sign is not followed by a number, so the modifier is
      absent and the match stops before the sign. */
  lemma DanglingSignUnconsumed()
    ensures AfterSides("1d6+", 1, 6, 3).end == 3
  {
    var s := "1d6+";
    assert Whitespace(s, 3) == 3 && Whitespace(s, 4) == 4 && DigitsEnd(s, 4) == 4;
    assert Modifier(s, 3).None?;
  }

  /** A sign with no number after it is left unconsumed, so the parse fails. */
  lemma ParseRejectsDanglingSign()
    ensures Parse("1d6+") == None
  {
    DanglingSignPrefix();
    DanglingSignUnconsumed();
  }
}
