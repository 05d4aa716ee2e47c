/**
 * The case-insensitive string comparison that the column differ uses for
 * column names (hutool's `StrUtil.equalsIgnoreCase`): `null` equals only
 * `null`, and two strings are equal when they agree after lower-casing.
 * Case folding is ASCII only.
 */
module StrUtil {
  import opened Wrappers

  predicate IsUpper(c: char) {
    'A' <= c <= 'Z'
  }

  /** ASCII lower-casing of one character: capitals move to their small letter, all else stays. */
  function LowerChar(c: char): (r: char)
    ensures !IsUpper(r)
    ensures IsUpper(c) ==> 'a' <= r <= 'z' && r as int - c as int == 'a' as int - 'A' as int
    ensures !IsUpper(c) ==> r == c
  {
    if IsUpper(c) then (c as int - 'A' as int + 'a' as int) as char else c
  }

  /** ASCII lower-casing of a whole string, character by character. */
  function ToLower(s: string): (r: string)
    ensures |r| == |s|
    ensures forall i :: 0 <= i < |s| ==> r[i] == LowerChar(s[i])
  {
    if s == [] then [] else [LowerChar(s[0])] + ToLower(s[1..])
  }

  /** Lower-casing twice is lower-casing once. */
  lemma ToLowerIdempotent(s: string)
    ensures ToLower(ToLower(s)) == ToLower(s)
  {
  }

  /**
   * Null-safe, case-insensitive equality: both absent, or both present with
   * the same length and the same characters once lower-cased.
   */
  function EqualsIgnoreCase(a: Option<string>, b: Option<string>): (r: bool)
    ensures a.None? || b.None? ==> (r <==> a == b)
    ensures a.Some? && b.Some? ==>
      (r <==> |a.value| == |b.value| &&
              forall i :: 0 <= i < |a.value| ==> LowerChar(a.value[i]) == LowerChar(b.value[i]))
  {
    match (a, b)
    case (None, None) => true
    case (None, Some(_)) => false
    case (Some(_), None) => false
    case (Some(x), Some(y)) => ToLower(x) == ToLower(y)
  }

  /** The comparison is an equivalence relation on nullable strings. */
  lemma EqualsIgnoreCaseIsEquivalence(a: Option<string>, b: Option<string>, c: Option<string>)
    ensures EqualsIgnoreCase(a, a)
    ensures EqualsIgnoreCase(a, b) ==> EqualsIgnoreCase(b, a)
    ensures EqualsIgnoreCase(a, b) && EqualsIgnoreCase(b, c) ==> EqualsIgnoreCase(a, c)
  {
  }

  /** A string compares equal to its own lower-cased form. */
  lemma EqualsIgnoreCaseOfLowered(s: string)
    ensures EqualsIgnoreCase(Some(s), Some(ToLower(s)))
  {
  }
}
