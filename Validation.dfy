/** Input validation for piloting axes and circle directions
    (src/modules/Validation.module.ts). */
module Validation {

  /** The largest magnitude a piloting axis may be commanded with. */
  const AxisLimit: real := 75.0

  /** `axis`: clamps a commanded axis value to [-75, 75]. */
  function Axis(value: real): (r: real)
    ensures -AxisLimit <= r <= AxisLimit
    ensures -AxisLimit <= value <= AxisLimit ==> r == value
    ensures value > AxisLimit ==> r == AxisLimit
    ensures value < -AxisLimit ==> r == -AxisLimit
  {
    if value > 75.0 then 75.0
    else if value < -75.0 then -75.0
    else value
  }

  lemma AxisIdempotent(value: real)
    ensures Axis(Axis(value)) == Axis(value)
  {
  }

  lemma AxisMonotone(x: real, y: real)
    requires x <= y
    ensures Axis(x) <= Axis(y)
  {
  }

  /** Clamping never turns a push into "no push" nor the reverse. */
  lemma AxisZeroIff(value: real)
    ensures Axis(value) == 0.0 <==> value == 0.0
  {
  }

  /** ASCII case mapping. No character outside ASCII lower-cases to 'c' or
      'w', so on the inputs `circleDirection` accepts this agrees with
      JavaScript's full Unicode mapping. */
  function LowerChar(c: char): char {
    if 'A' <= c <= 'Z' then (c as int + 32) as char else c
  }

  function UpperChar(c: char): char {
    if 'a' <= c <= 'z' then (c as int - 32) as char else c
  }

  function ToLower(s: string): (r: string)
    ensures |r| == |s|
    ensures forall i :: 0 <= i < |s| ==> r[i] == LowerChar(s[i])
  {
    seq(|s|, i requires 0 <= i < |s| => LowerChar(s[i]))
  }

  function ToUpper(s: string): (r: string)
    ensures |r| == |s|
    ensures forall i :: 0 <= i < |s| ==> r[i] == UpperChar(s[i])
  {
    seq(|s|, i requires 0 <= i < |s| => UpperChar(s[i]))
  }

  /** The test `circleDirection` makes before normalising: the direction is
      "cw" or "ccw" in any letter case. */
  predicate IsCircleDirection(value: string) {
    ToLower(value) == "cw" || ToLower(value) == "ccw"
  }

  /** A character that lower-cases to a lower-case letter upper-cases to that
      letter's capital. */
  lemma UpperOfLowerLetter(c: char)
    requires 'a' <= LowerChar(c) <= 'z'
    ensures UpperChar(c) == UpperChar(LowerChar(c))
  {
  }

  /** Two strings with the same lower-case form (a lower-case word) have the
      same upper-case form. */
  lemma {:induction false} UpperFollowsLower(s: string, word: string)
    requires ToLower(s) == word
    requires forall i :: 0 <= i < |word| ==> 'a' <= word[i] <= 'z'
    ensures ToUpper(s) == ToUpper(word)
  {
    forall i | 0 <= i < |s|
      ensures ToUpper(s)[i] == ToUpper(word)[i]
    {
      assert ToLower(s)[i] == LowerChar(s[i]);
      UpperOfLowerLetter(s[i]);
    }
  }

  /** `circleDirection`: "cw"/"ccw" in any letter case become "CW"/"CCW";
      every other string defaults to "CW" rather than being rejected. */
  function CircleDirection(value: string): (r: string)
    ensures r == "CW" || r == "CCW"
    ensures r == "CCW" <==> ToLower(value) == "ccw"
    ensures !IsCircleDirection(value) ==> r == "CW"
  {
    if ToLower(value) == "cw" || ToLower(value) == "ccw" then
      var word := ToLower(value);
      UpperFollowsLower(value, word);
      ToUpper(value)
    else
      "CW"
  }

  /** The direction is case-insensitive: normalising the lower-case form gives
      the same answer. */
  lemma CircleDirectionCaseInsensitive(value: string)
    ensures CircleDirection(ToLower(value)) == CircleDirection(value)
  {
    var low := ToLower(value);
    assert ToLower(low) == low by {
      forall i | 0 <= i < |low| ensures ToLower(low)[i] == low[i] { }
    }
  }

  /** "CW" and "CCW" are left as they are. */
  lemma CircleDirectionFixesNormalForm(value: string)
    requires value == "CW" || value == "CCW"
    ensures CircleDirection(value) == value
  {
    if value == "CW" {
      assert ToLower(value) == "cw";
    } else {
      assert ToLower(value) == "ccw";
    }
  }
}
