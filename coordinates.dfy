/** The coordinate guard `isValidCoordinates` of the hazard front end: a
    `"lon,lat"` text must match `^-?\d+(\.\d+)?,-?\d+(\.\d+)?$` and, read as
    numbers, the longitude must lie in [-180, 180] and the latitude in [-90, 90].
    Numbers are exact decimals (`real`), not binary floating point. */
module Coordinates {
  import opened Common

  /** `\d` in a JavaScript regular expression: an ASCII digit. */
  predicate IsAsciiDigit(c: char) { '0' <= c <= '9' }

  predicate AllDigits(s: string) { forall i :: 0 <= i < |s| ==> IsAsciiDigit(s[i]) }

  /** A literal of the shape `-?\d+(\.\d+)?`, split into its parts. */
  datatype Decimal = Decimal(negative: bool, whole: string, fraction: Option<string>)

  /** The parts fit the grammar: a non-empty digit run, and a non-empty digit run after the point if any. */
  predicate WellFormed(d: Decimal)
  {
    && |d.whole| > 0 && AllDigits(d.whole)
    && (d.fraction.Some? ==> |d.fraction.value| > 0 && AllDigits(d.fraction.value))
  }

  /** The text of a decimal literal. */
  function Render(d: Decimal): string
  {
    (if d.negative then "-" else "") + Magnitude(d.whole, d.fraction)
  }

  /** Length of the run of ASCII digits that starts `s`. */
  function DigitRun(s: string): nat
  {
    if |s| > 0 && IsAsciiDigit(s[0]) then 1 + DigitRun(s[1..]) else 0
  }

  lemma {:induction false} DigitRunSpec(s: string)
    ensures DigitRun(s) <= |s| && AllDigits(s[..DigitRun(s)])
    ensures DigitRun(s) < |s| ==> !IsAsciiDigit(s[DigitRun(s)])
  {
    if |s| > 0 && IsAsciiDigit(s[0]) {
      DigitRunSpec(s[1..]);
      assert s[..DigitRun(s)] == [s[0]] + s[1..][..DigitRun(s[1..])];
    }
  }

  /** The digit run of `w + t` is all of `w` when `w` is digits and `t` starts with a non-digit. */
  lemma {:induction false} DigitRunOfDigits(w: string, t: string)
    requires AllDigits(w)
    requires |t| > 0 ==> !IsAsciiDigit(t[0])
    ensures DigitRun(w + t) == |w|
    decreases |w|
  {
    if |w| > 0 {
      assert (w + t)[1..] == w[1..] + t;
      DigitRunOfDigits(w[1..], t);
    }
  }

  /** The unsigned part of a literal: digits, then optionally a point and more digits. */
  function Magnitude(whole: string, fraction: Option<string>): string
  {
    whole + (if fraction.Some? then "." + fraction.value else "")
  }

  /** Matches `s` against `\d+(\.\d+)?` as a whole. */
  function ParseUnsigned(s: string): Option<(string, Option<string>)>
  {
    var n := DigitRun(s);
    if n == 0 || n > |s| then None
    else if n == |s| then Some((s, None))
    else if s[n] == '.' && n + 1 < |s| && AllDigits(s[n + 1..]) then Some((s[..n], Some(s[n + 1..])))
    else None
  }

  /** Matches `s` against `-?\d+(\.\d+)?` as a whole. */
  function ParseDecimal(s: string): Option<Decimal>
  {
    var negative := |s| > 0 && s[0] == '-';
    match ParseUnsigned(if negative then s[1..] else s)
    case None => None
    case Some((whole, fraction)) => Some(Decimal(negative, whole, fraction))
  }

  /** Whatever the unsigned matcher accepts is a digit run, optionally a point and digits, spelling the input. */
  lemma ParseUnsignedSound(s: string)
    ensures ParseUnsigned(s).Some? ==>
      && WellFormed(Decimal(false, ParseUnsigned(s).value.0, ParseUnsigned(s).value.1))
      && Magnitude(ParseUnsigned(s).value.0, ParseUnsigned(s).value.1) == s
  {
    DigitRunSpec(s);
    var n := DigitRun(s);
    if n == |s| {
      assert s[..n] == s;
    } else if 0 < n < |s| && s[n] == '.' {
      assert s == s[..n] + "." + s[n + 1..];
    }
  }

  /** Whatever the matcher accepts is a well-formed literal spelling exactly the input. */
  lemma ParseDecimalSound(s: string)
    ensures ParseDecimal(s).Some? ==> WellFormed(ParseDecimal(s).value) && Render(ParseDecimal(s).value) == s
  {
    var negative := |s| > 0 && s[0] == '-';
    var rest := if negative then s[1..] else s;
    ParseUnsignedSound(rest);
    assert negative ==> s == "-" + rest;
  }

  /** Every digit run with an optional fraction is recognised and split back into its parts. */
  lemma ParseMagnitude(whole: string, fraction: Option<string>)
    requires WellFormed(Decimal(false, whole, fraction))
    ensures ParseUnsigned(Magnitude(whole, fraction)) == Some((whole, fraction))
  {
    var tail := if fraction.Some? then "." + fraction.value else "";
    var s := whole + tail;
    DigitRunOfDigits(whole, tail);
    assert Magnitude(whole, fraction) == s;
    var n := |whole|;
    if fraction.Some? {
      assert s[..n] == whole;
      assert s[n] == '.' && s[n + 1..] == fraction.value;
    } else {
      assert s == whole;
    }
  }

  /** Every well-formed literal is recognised and read back into the same parts. */
  lemma ParseRender(d: Decimal)
    requires WellFormed(d)
    ensures ParseDecimal(Render(d)) == Some(d)
  {
    var s := Render(d);
    var m := Magnitude(d.whole, d.fraction);
    assert s == (if d.negative then "-" else "") + m;
    assert (if |s| > 0 && s[0] == '-' then s[1..] else s) == m;
    ParseMagnitude(d.whole, d.fraction);
  }

  /** Index of the first comma of `s`, or `|s|` if there is none. */
  function CommaIndex(s: string): nat
  {
    if |s| == 0 then 0
    else if s[0] == ',' then 0
    else 1 + CommaIndex(s[1..])
  }

  lemma {:induction false} CommaIndexSpec(s: string)
    ensures CommaIndex(s) <= |s| && (CommaIndex(s) < |s| ==> s[CommaIndex(s)] == ',')
    ensures forall j :: 0 <= j < CommaIndex(s) ==> s[j] != ','
  {
    if |s| > 0 && s[0] != ',' {
      CommaIndexSpec(s[1..]);
    }
  }

  /** Splits `s` at its first comma and matches both sides: the test
      `^-?\d+(\.\d+)?,-?\d+(\.\d+)?$` together with `split(',')`. */
  function ParseCoordinates(s: string): Option<(Decimal, Decimal)>
  {
    var i := CommaIndex(s);
    if i >= |s| then None
    else
      var lon := ParseDecimal(s[..i]);
      var lat := ParseDecimal(s[i + 1..]);
      if lon.Some? && lat.Some? then Some((lon.value, lat.value)) else None
  }

  /** Whatever the coordinate matcher accepts is two literals joined by one comma. */
  lemma ParseCoordinatesSound(s: string)
    ensures ParseCoordinates(s).Some? ==>
      && WellFormed(ParseCoordinates(s).value.0) && WellFormed(ParseCoordinates(s).value.1)
      && s == Render(ParseCoordinates(s).value.0) + "," + Render(ParseCoordinates(s).value.1)
  {
    CommaIndexSpec(s);
    var i := CommaIndex(s);
    if i < |s| {
      ParseDecimalSound(s[..i]);
      ParseDecimalSound(s[i + 1..]);
      assert s == s[..i] + "," + s[i + 1..];
    }
  }

  /** No literal of the grammar contains a comma. */
  lemma RenderHasNoComma(d: Decimal)
    requires WellFormed(d)
    ensures ',' !in Render(d)
  {
  }

  /** Every pair of literals joined by a comma parses back into that pair. */
  lemma ParseRenderCoordinates(lon: Decimal, lat: Decimal)
    requires WellFormed(lon) && WellFormed(lat)
    ensures ParseCoordinates(Render(lon) + "," + Render(lat)) == Some((lon, lat))
  {
    var a, b := Render(lon), Render(lat);
    var s := a + "," + b;
    RenderHasNoComma(lon);
    CommaIndexSpec(s);
    var i := CommaIndex(s);
    assert s[|a|] == ',';
    assert i == |a|;
    assert s[..i] == a && s[i + 1..] == b;
    ParseRender(lon);
    ParseRender(lat);
  }

  /** The number `Number(s)` gives for a digit string `s`. */
  function DigitsValue(s: string): nat
    requires AllDigits(s)
  {
    if |s| == 0 then 0
    else DigitsValue(s[..|s| - 1]) * 10 + (s[|s| - 1] as int - '0' as int)
  }

  function Pow10(n: nat): (p: nat)
    ensures p > 0
  {
    if n == 0 then 1 else 10 * Pow10(n - 1)
  }

  /** A run of `n` digits reads as less than `10^n`. */
  lemma {:induction false} DigitsValueBound(s: string)
    requires AllDigits(s)
    ensures DigitsValue(s) < Pow10(|s|)
  {
    if |s| > 0 {
      DigitsValueBound(s[..|s| - 1]);
    }
  }

  /** The digits after the point, read as the fraction they denote. */
  function FractionValue(d: Decimal): real
    requires WellFormed(d)
  {
    if d.fraction.Some? then DigitsValue(d.fraction.value) as real / Pow10(|d.fraction.value|) as real else 0.0
  }

  /** The exact value of a well-formed literal. */
  function Value(d: Decimal): real
    requires WellFormed(d)
  {
    var magnitude := DigitsValue(d.whole) as real + FractionValue(d);
    if d.negative then -magnitude else magnitude
  }

  /** The digits after the point add less than one, so the size of a
      literal's value lies between its whole digits and the next integer. */
  lemma ValueWithinWholeDigits(d: Decimal)
    requires WellFormed(d)
    ensures var size := if d.negative then -Value(d) else Value(d);
      DigitsValue(d.whole) as real <= size < DigitsValue(d.whole) as real + 1.0
  {
    if d.fraction.Some? {
      DigitsValueBound(d.fraction.value);
      ProperFraction(DigitsValue(d.fraction.value), Pow10(|d.fraction.value|));
    }
  }

  lemma ProperFraction(num: nat, den: nat)
    requires num < den
    ensures 0.0 <= num as real / den as real < 1.0
  {
  }

  predicate InLongitudeRange(x: real) { -180.0 <= x <= 180.0 }

  predicate InLatitudeRange(y: real) { -90.0 <= y <= 90.0 }

  /** `isValidCoordinates`: the pattern test, then the range test on both numbers. */
  function IsValidCoordinates(coordinates: string): bool
  {
    match ParseCoordinates(coordinates)
    case None => false
    case Some((lon, lat)) =>
      ParseCoordinatesSound(coordinates);
      InLongitudeRange(Value(lon)) && InLatitudeRange(Value(lat))
  }

  /** Two literals joined by a comma are valid exactly when their values are in range. */
  lemma ValidityOfPair(lon: Decimal, lat: Decimal)
    requires WellFormed(lon) && WellFormed(lat)
    ensures IsValidCoordinates(Render(lon) + "," + Render(lat)) <==>
      InLongitudeRange(Value(lon)) && InLatitudeRange(Value(lat))
  {
    ParseRenderCoordinates(lon, lat);
  }

  /** The whole digits of the longitude settle its range test whatever the
      fraction: above 180 the pair is refused, below 180 only the latitude
      decides. */
  lemma LongitudeWholeDigitsDecide(lon: Decimal, lat: Decimal)
    requires WellFormed(lon) && WellFormed(lat)
    ensures DigitsValue(lon.whole) > 180 ==> !IsValidCoordinates(Render(lon) + "," + Render(lat))
    ensures DigitsValue(lon.whole) < 180 ==>
      (IsValidCoordinates(Render(lon) + "," + Render(lat)) <==> InLatitudeRange(Value(lat)))
  {
    ValidityOfPair(lon, lat);
    ValueWithinWholeDigits(lon);
  }

  /** A coordinate text is valid exactly when it is two literals of the grammar
      joined by one comma, with the first in the longitude range and the second
      in the latitude range. */
  lemma ValidCoordinatesIff(coordinates: string)
    ensures IsValidCoordinates(coordinates) <==>
      exists lon: Decimal, lat: Decimal ::
        && WellFormed(lon) && WellFormed(lat)
        && coordinates == Render(lon) + "," + Render(lat)
        && InLongitudeRange(Value(lon)) && InLatitudeRange(Value(lat))
  {
    ParseCoordinatesSound(coordinates);
    if exists lon: Decimal, lat: Decimal ::
        && WellFormed(lon) && WellFormed(lat)
        && coordinates == Render(lon) + "," + Render(lat)
        && InLongitudeRange(Value(lon)) && InLatitudeRange(Value(lat))
    {
      var lon: Decimal, lat: Decimal :|
        && WellFormed(lon) && WellFormed(lat)
        && coordinates == Render(lon) + "," + Render(lat)
        && InLongitudeRange(Value(lon)) && InLatitudeRange(Value(lat));
      ValidityOfPair(lon, lat);
    }
  }

  /** The characters a valid coordinate text can be made of. */
  predicate IsPatternChar(c: char) { IsAsciiDigit(c) || c == '-' || c == '.' || c == ',' }

  lemma RenderUsesPatternChars(d: Decimal, k: int)
    requires WellFormed(d) && 0 <= k < |Render(d)|
    ensures IsPatternChar(Render(d)[k])
  {
    var sign := if d.negative then "-" else "";
    if |sign| <= k < |sign| + |d.whole| {
      assert Render(d)[k] == d.whole[k - |sign|];
    } else if k > |sign| + |d.whole| {
      assert Render(d)[k] == d.fraction.value[k - |sign| - |d.whole| - 1];
    }
  }

  /** A valid coordinate text holds nothing but digits, `-`, `.` and `,`:
      no `+`, exponent, space or other character. */
  lemma ValidUsesPatternChars(coordinates: string, k: int)
    requires IsValidCoordinates(coordinates) && 0 <= k < |coordinates|
    ensures IsPatternChar(coordinates[k])
  {
    ParseCoordinatesSound(coordinates);
    var (lon, lat) := ParseCoordinates(coordinates).value;
    var a := Render(lon);
    if k < |a| {
      RenderUsesPatternChars(lon, k);
    } else if k > |a| {
      RenderUsesPatternChars(lat, k - |a| - 1);
    }
  }

  /** Two comma-free texts joined by a comma have their one comma at the join. */
  lemma CommaAtJoin(a: string, b: string, i: int)
    requires ',' !in a && ',' !in b
    requires 0 <= i < |a + "," + b| && (a + "," + b)[i] == ','
    ensures i == |a|
  {
    var s := a + "," + b;
    assert s[..|a|] == a && s[|a| + 1..] == b;
  }

  /** A valid coordinate text has exactly one comma. */
  lemma ValidHasOneComma(coordinates: string)
    requires IsValidCoordinates(coordinates)
    ensures exists i :: 0 <= i < |coordinates| && coordinates[i] == ','
    ensures forall i, j :: 0 <= i < j < |coordinates| && coordinates[i] == ',' ==> coordinates[j] != ','
  {
    ParseCoordinatesSound(coordinates);
    var (lon, lat) := ParseCoordinates(coordinates).value;
    var a, b := Render(lon), Render(lat);
    RenderHasNoComma(lon);
    RenderHasNoComma(lat);
    assert coordinates[|a|] == ',';
    forall i, j | 0 <= i < j < |coordinates| && coordinates[i] == ','
      ensures coordinates[j] != ','
    {
      CommaAtJoin(a, b, i);
      if coordinates[j] == ',' {
        CommaAtJoin(a, b, j);
      }
    }
  }

  /** In a valid coordinate text every point has a digit on each side. */
  lemma ValidPointBetweenDigits(coordinates: string, k: int)
    requires IsValidCoordinates(coordinates) && 0 <= k < |coordinates| && coordinates[k] == '.'
    ensures 0 < k < |coordinates| - 1
    ensures IsAsciiDigit(coordinates[k - 1]) && IsAsciiDigit(coordinates[k + 1])
  {
    ParseCoordinatesSound(coordinates);
    var (lon, lat) := ParseCoordinates(coordinates).value;
    var a := Render(lon);
    if k < |a| {
      RenderPointBetweenDigits(lon, k);
      assert coordinates[k - 1] == a[k - 1];
      if k + 1 < |a| {
        assert coordinates[k + 1] == a[k + 1];
      }
    } else {
      assert k != |a|;
      RenderPointBetweenDigits(lat, k - |a| - 1);
      assert coordinates[k - 1] == Render(lat)[k - |a| - 2];
    }
  }

  lemma RenderPointBetweenDigits(d: Decimal, k: int)
    requires WellFormed(d) && 0 <= k < |Render(d)| && Render(d)[k] == '.'
    ensures 0 < k < |Render(d)| - 1
    ensures IsAsciiDigit(Render(d)[k - 1]) && IsAsciiDigit(Render(d)[k + 1])
  {
    var sign := if d.negative then "-" else "";
    var r := Render(d);
    assert r[..|sign|] == sign;
    assert r[|sign|..|sign| + |d.whole|] == d.whole;
    assert k == |sign| + |d.whole|;
    assert r[k - 1] == d.whole[|d.whole| - 1];
    assert r[k + 1] == d.fraction.value[0];
  }

  /** `"200,50"` has the right shape but a longitude outside [-180, 180]. */
  lemma LongitudeOutOfRangeRejected()
    ensures !IsValidCoordinates("200,50")
  {
    var lon, lat := Decimal(false, "200", None), Decimal(false, "50", None);
    ValidityOfPair(lon, lat);
    assert "200"[..2] == "20" && "20"[..1] == "2" && "2"[..0] == "";
    assert Render(lon) + "," + Render(lat) == "200,50";
  }

  /** A plus sign, an exponent or a space is refused whatever the values. */
  lemma ForeignCharactersRejected()
    ensures !IsValidCoordinates("+2,48")
    ensures !IsValidCoordinates("2e1,48")
    ensures !IsValidCoordinates("2, 48")
  {
    if IsValidCoordinates("+2,48") {
      ValidUsesPatternChars("+2,48", 0);
    }
    if IsValidCoordinates("2e1,48") {
      ValidUsesPatternChars("2e1,48", 1);
    }
    if IsValidCoordinates("2, 48") {
      ValidUsesPatternChars("2, 48", 2);
    }
  }

  /** A point needs a digit on each side, and there is exactly one comma. */
  lemma MisplacedSeparatorsRejected()
    ensures !IsValidCoordinates("2.,48")
    ensures !IsValidCoordinates(".5,48")
    ensures !IsValidCoordinates("2,48,1")
    ensures !IsValidCoordinates("2")
  {
    if IsValidCoordinates("2.,48") {
      ValidPointBetweenDigits("2.,48", 1);
    }
    if IsValidCoordinates(".5,48") {
      ValidPointBetweenDigits(".5,48", 0);
    }
    assert "2,48,1"[1] == ',' && "2,48,1"[4] == ',';
    if IsValidCoordinates("2,48,1") {
      ValidHasOneComma("2,48,1");
    }
    assert |"2"| == 1 && "2"[0] == '2';
    if IsValidCoordinates("2") {
      ValidHasOneComma("2");
    }
  }

  /** The bounds are inclusive and the sign is read. */
  lemma BoundsAccepted()
    ensures IsValidCoordinates("-180" + "," + "90")
  {
    var lon, lat := Decimal(true, "180", None), Decimal(false, "90", None);
    ValidityOfPair(lon, lat);
    assert "180"[..2] == "18" && "18"[..1] == "1" && "1"[..0] == "";
    assert "90"[..1] == "9" && "9"[..0] == "";
    assert Render(lon) == "-180" && Render(lat) == "90";
  }
}
