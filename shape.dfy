/** The strings the roll-specifier grammar accepts, described without the
    parser: optional whitespace, an optional digit run (the roll count),
    whitespace, `d` or `D`, whitespace, one of the listed side counts, then
    whitespace, an optional modifier (an optional sign, whitespace, a digit
    run) and whitespace to the end. The one trace of PEG semantics is that
    the side count is the FIRST alternative of `dice_sides` that is a prefix
    of what follows the marker: `1d25` has sides 2 and modifier 5. */
module AcceptedShape {
  import opened Options
  import opened Decimal
  import opened Grammar

  /** Where the pieces of an accepted input begin and end. */
  datatype Layout = Layout(countStart: nat, countEnd: nat, marker: nat, sidesStart: nat,
                           alternative: nat, modifierStart: nat, digitsStart: nat, modifierEnd: nat)

  /** `_ number? _` up to the marker at `c`: whitespace to `a`, digits to `b`,
      whitespace to `c`. */
  ghost predicate CountShaped(s: seq<char>, a: nat, b: nat, c: nat) {
    && a <= b <= c <= |s|
    && WhitespaceBetween(s, 0, a) && AllDigits(s[a..b]) && WhitespaceBetween(s, b, c)
  }

  /** `"d"i _ dice_sides`: the marker at `c`, whitespace to `d`, then
      alternative `k`, the first one that is a prefix of the input at `d`. */
  ghost predicate SidesShaped(s: seq<char>, c: nat, d: nat, k: nat) {
    && c < |s| && IsDiceMarker(s[c]) && c + 1 <= d <= |s| && WhitespaceBetween(s, c + 1, d)
    && k < |SidesAlternatives| && SidesAlternatives[k] <= s[d..]
    && (forall j :: 0 <= j < k ==> !(SidesAlternatives[j] <= s[d..]))
  }

  /** `_ modifier? _` to the end of the input, from `e`: whitespace to `f`,
      an optional sign and whitespace to `h`, digits to `g` (none when the
      modifier is absent), whitespace to the end. */
  ghost predicate ModifierShaped(s: seq<char>, e: nat, f: nat, h: nat, g: nat) {
    && e <= f <= h <= g <= |s|
    && WhitespaceBetween(s, e, f)
    && (f == h || (IsSign(s[f]) && WhitespaceBetween(s, f + 1, h) && h < g))
    && AllDigits(s[h..g])
    && WhitespaceBetween(s, g, |s|)
  }

  ghost predicate Shaped(s: seq<char>, L: Layout) {
    var Layout(a, b, c, d, k, f, h, g) := L;
    && CountShaped(s, a, b, c)
    && SidesShaped(s, c, d, k)
    && ModifierShaped(s, d + |SidesAlternatives[k]|, f, h, g)
  }

  /** `rolls || 1`: an absent count and a count of zero both mean one roll. */
  function CountOf(t: seq<char>): (n: nat)
    requires AllDigits(t)
    ensures n >= 1
    ensures t != [] && Value(t) != 0 ==> n == Value(t)
    ensures t == [] || Value(t) == 0 ==> n == 1
  {
    if t == [] || Value(t) == 0 then 1 else Value(t)
  }

  /** `modifier || 0` with the sign applied. */
  ghost function ModifierOf(s: seq<char>, f: nat, h: nat, g: nat): int
    requires f <= h <= g <= |s| && AllDigits(s[h..g])
  {
    if h == g then 0
    else if f < h && s[f] == '-' then -(Value(s[h..g]) as int)
    else Value(s[h..g])
  }

  /** The roll request an input of that layout stands for. */
  ghost function SpecOf(s: seq<char>, L: Layout): RollSpec
    requires Shaped(s, L)
  {
    var Layout(a, b, c, d, k, f, h, g) := L;
    RollSpec(CountOf(s[a..b]), SidesValue(k), ModifierOf(s, f, h, g))
  }

  /** The `_` rule stops exactly at the first non-whitespace character. */
  lemma {:induction false} WhitespaceStopsAt(s: seq<char>, i: nat, j: nat)
    requires i <= j <= |s| && WhitespaceBetween(s, i, j) && (j == |s| || !IsWhitespace(s[j]))
    ensures Whitespace(s, i) == j
    decreases j - i
  {
    if i < j {
      WhitespaceStopsAt(s, i + 1, j);
    }
  }

  /** A digit run stops exactly at the first non-digit. */
  lemma {:induction false} DigitsStopAt(s: seq<char>, i: nat, j: nat)
    requires i <= j <= |s| && AllDigits(s[i..j]) && (j == |s| || !IsDigit(s[j]))
    ensures DigitsEnd(s, i) == j
    decreases j - i
  {
    if i < j {
      assert IsDigit(s[i..j][0]);
      assert s[i + 1..j] == s[i..j][1..];
      DigitsStopAt(s, i + 1, j);
    }
  }

  lemma {:induction false} FirstAlternativeIs(s: seq<char>, i: nat, k: nat, from: nat)
    requires i <= |s| && from <= k < |SidesAlternatives| && SidesAlternatives[k] <= s[i..]
    requires forall j :: from <= j < k ==> !(SidesAlternatives[j] <= s[i..])
    ensures FirstAlternative(s, i, from) == Some(k)
    decreases k - from
  {
    if from < k {
      FirstAlternativeIs(s, i, k, from + 1);
    }
  }

  /** A present modifier: the sign, the whitespace after it and the digits
      are exactly what the `modifier` rule consumes. */
  lemma ModifierPresent(s: seq<char>, e: nat, f: nat, h: nat, g: nat)
    requires ModifierShaped(s, e, f, h, g) && h < g
    ensures Whitespace(s, e) == f
    ensures Modifier(s, f) == Some(Match(ModifierOf(s, f, h, g), g))
  {
    ModifierDigits(s, e, f, h, g);
    WhitespaceStopsAt(s, e, f);
  }

  /** Past the optional sign and its whitespace, the modifier's digit run is
      the `number` that follows. */
  lemma ModifierDigits(s: seq<char>, e: nat, f: nat, h: nat, g: nat)
    requires ModifierShaped(s, e, f, h, g) && h < g
    ensures IsDigit(s[h]) && Whitespace(s, SignEnd(s, f)) == h
    ensures Number(s, h) == Some(Match(Value(s[h..g]), g))
  {
    assert IsDigit(s[h]) by {
      assert s[h] == s[h..g][0];
    }
    if f < h {
      WhitespaceStopsAt(s, f + 1, h);
    }
    DigitsStopAt(s, h, g);
  }

  lemma ModifierComplete(s: seq<char>, e: nat, f: nat, h: nat, g: nat, count: nat, sides: nat)
    requires ModifierShaped(s, e, f, h, g)
    ensures AfterSides(s, count, sides, Whitespace(s, e)) == Match(RollSpec(count, sides, ModifierOf(s, f, h, g)), |s|)
  {
    if h < g {
      ModifierPresent(s, e, f, h, g);
      WhitespaceStopsAt(s, g, |s|);
    } else {
      WhitespaceStopsAt(s, e, |s|);
      assert Modifier(s, |s|).None?;
    }
  }

  /** `dice_sides` takes the first alternative that matches. */
  lemma DiceSidesIs(s: seq<char>, d: nat, k: nat)
    requires d <= |s| && k < |SidesAlternatives| && FirstAlternative(s, d, 0) == Some(k)
    ensures DiceSides(s, d) == Some(Match(SidesValue(k), d + |SidesAlternatives[k]|))
  {
    var r := DiceSides(s, d);
    assert r.Some? && r.value.end == d + |SidesAlternatives[k]| && r.value.value == SidesValue(k);
  }

  /** After a marker at `c`, `dice_roll` goes on with what `dice_sides`
      matched after the whitespace. */
  lemma AfterCountIs(s: seq<char>, count: nat, c: nat, d: nat, sides: nat, e: nat)
    requires count >= 1 && c < |s| && IsDiceMarker(s[c]) && Whitespace(s, c + 1) == d
    requires DiceSides(s, d) == Some(Match(sides, e))
    ensures e <= |s| && AfterCount(s, count, c) == Some(AfterSides(s, count, sides, Whitespace(s, e)))
  {
  }

  lemma SidesComplete(s: seq<char>, c: nat, d: nat, k: nat, f: nat, h: nat, g: nat, count: nat)
    requires count >= 1 && SidesShaped(s, c, d, k) && ModifierShaped(s, d + |SidesAlternatives[k]|, f, h, g)
    ensures AfterCount(s, count, c) ==
            Some(Match(RollSpec(count, SidesValue(k), ModifierOf(s, f, h, g)), |s|))
  {
    var alt := SidesAlternatives[k];
    var e := d + |alt|;
    assert Whitespace(s, c + 1) == d by {
      AlternativeValues(k);
      assert alt <= s[d..] && IsDigit(alt[0]);
      assert d < |s| && s[d] == alt[0];
      WhitespaceStopsAt(s, c + 1, d);
    }
    FirstAlternativeIs(s, d, k, 0);
    DiceSidesIs(s, d, k);
    AfterCountIs(s, count, c, d, SidesValue(k), e);
    ModifierComplete(s, e, f, h, g, count, SidesValue(k));
  }

  /** A written count: the leading whitespace, the digits and the whitespace
      after them are exactly what `_ number? _` consumes. */
  lemma CountPresent(s: seq<char>, a: nat, b: nat, c: nat)
    requires CountShaped(s, a, b, c) && c < |s| && IsDiceMarker(s[c]) && a < b
    ensures Whitespace(s, 0) == a && Number(s, a) == Some(Match(Value(s[a..b]), b)) && Whitespace(s, b) == c
  {
    assert IsDigit(s[a]) by {
      assert s[a] == s[a..b][0];
    }
    WhitespaceStopsAt(s, 0, a);
    DigitsStopAt(s, a, b);
    WhitespaceStopsAt(s, b, c);
  }

  /** No count: `_ number? _` consumes the whitespace up to the marker. */
  lemma CountAbsent(s: seq<char>, a: nat, c: nat)
    requires CountShaped(s, a, a, c) && c < |s| && IsDiceMarker(s[c])
    ensures Whitespace(s, 0) == c && Number(s, c).None?
  {
    WhitespaceStopsAt(s, 0, c);
  }

  /** Up to the marker, `dice_roll` consumes exactly the count part. */
  lemma CountComplete(s: seq<char>, a: nat, b: nat, c: nat)
    requires CountShaped(s, a, b, c) && c < |s| && IsDiceMarker(s[c])
    ensures DiceRoll(s) == AfterCount(s, CountOf(s[a..b]), c)
  {
    if a < b {
      CountPresent(s, a, b, c);
    } else {
      CountAbsent(s, a, c);
      assert s[a..b] == [];
    }
  }

  /** Every input of the described shape is accepted, with the values the
      layout stands for. */
  lemma ParseComplete(s: seq<char>, L: Layout)
    requires Shaped(s, L)
    ensures Parse(s) == Some(SpecOf(s, L))
  {
    var Layout(a, b, c, d, k, f, h, g) := L;
    CountComplete(s, a, b, c);
    SidesComplete(s, c, d, k, f, h, g, CountOf(s[a..b]));
  }

  lemma ModifierSound(s: seq<char>, e: nat, count: nat, sides: nat) returns (f: nat, h: nat, g: nat)
    requires e <= |s| && AfterSides(s, count, sides, Whitespace(s, e)).end == |s|
    ensures ModifierShaped(s, e, f, h, g)
    ensures AfterSides(s, count, sides, Whitespace(s, e)).value == RollSpec(count, sides, ModifierOf(s, f, h, g))
  {
    f := Whitespace(s, e);
    var modifier := Modifier(s, f);
    var rest := AfterSides(s, count, sides, f);
    if modifier.Some? {
      var signEnd := SignEnd(s, f);
      h := Whitespace(s, signEnd);
      var n := Number(s, h);
      g := n.value.end;
      var w := Whitespace(s, g);
      assert rest.end == w == |s|;
      assert s[g..] == s[g..w];
      assert f == h || (IsSign(s[f]) && signEnd == f + 1);
      assert ModifierShaped(s, e, f, h, g);
    } else {
      h, g := f, f;
      WhitespaceStopsAt(s, f, f);
      assert rest.end == f == |s|;
      assert ModifierShaped(s, e, f, h, g);
    }
  }

  lemma SidesSound(s: seq<char>, c: nat, count: nat) returns (d: nat, k: nat, f: nat, h: nat, g: nat)
    requires count >= 1 && c <= |s| && AfterCount(s, count, c).Some? && AfterCount(s, count, c).value.end == |s|
    ensures && SidesShaped(s, c, d, k) && ModifierShaped(s, d + |SidesAlternatives[k]|, f, h, g)
            && AfterCount(s, count, c).value.value ==
               RollSpec(count, SidesValue(k), ModifierOf(s, f, h, g))
  {
    assert c < |s| && IsDiceMarker(s[c]);
    d := Whitespace(s, c + 1);
    var sides := DiceSides(s, d);
    assert sides.Some?;
    k := FirstAlternative(s, d, 0).value;
    AlternativeValues(k);
    assert SidesShaped(s, c, d, k);
    var e, value := sides.value.end, sides.value.value;
    assert e == d + |SidesAlternatives[k]| && value == SidesValue(k);
    var rest := AfterSides(s, count, value, Whitespace(s, e));
    assert AfterCount(s, count, c) == Some(rest);
    f, h, g := ModifierSound(s, e, count, value);
  }

  /** The three parts of the shape make up the whole. */
  lemma ShapedFromParts(s: seq<char>, L: Layout)
    requires CountShaped(s, L.countStart, L.countEnd, L.marker)
    requires SidesShaped(s, L.marker, L.sidesStart, L.alternative)
    requires ModifierShaped(s, L.sidesStart + |SidesAlternatives[L.alternative]|, L.modifierStart, L.digitsStart, L.modifierEnd)
    ensures Shaped(s, L)
  {
  }

  /** The part of `dice_roll` before the marker: whitespace, the optional
      roll count, whitespace. */
  lemma CountSound(s: seq<char>) returns (a: nat, b: nat, c: nat)
    ensures CountShaped(s, a, b, c)
    ensures DiceRoll(s) == AfterCount(s, CountOf(s[a..b]), c)
  {
    a := Whitespace(s, 0);
    var rolls := Number(s, a);
    b := if rolls.Some? then rolls.value.end else a;
    c := Whitespace(s, b);
    assert s[..a] == s[0..a];
    if rolls.None? {
      assert s[a..b] == [];
    }
  }

  /** Every accepted input has the described shape, and its values are the
      ones that shape stands for. */
  lemma ParseSound(s: seq<char>) returns (L: Layout)
    requires Parse(s).Some?
    ensures Shaped(s, L) && Parse(s) == Some(SpecOf(s, L))
  {
    var a, b, c := CountSound(s);
    var count := CountOf(s[a..b]);
    var m := AfterCount(s, count, c);
    assert m.Some? && m.value.end == |s| && Parse(s) == Some(m.value.value);
    var d, k, f, h, g := SidesSound(s, c, count);
    L := Layout(a, b, c, d, k, f, h, g);
    ShapedFromParts(s, L);
    assert SpecOf(s, L) == RollSpec(count, SidesValue(k), ModifierOf(s, f, h, g));
  }

  /** The grammar accepts exactly the inputs of the described shape. */
  lemma ParseAcceptsExactlyShaped(s: seq<char>)
    ensures Parse(s).Some? <==> exists L :: Shaped(s, L)
    ensures forall L :: Shaped(s, L) ==> Parse(s) == Some(SpecOf(s, L))
  {
    if Parse(s).Some? {
      var L := ParseSound(s);
    }
    forall L | Shaped(s, L) ensures Parse(s) == Some(SpecOf(s, L)) {
      ParseComplete(s, L);
    }
  }
}
