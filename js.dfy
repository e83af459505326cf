/**
 * The JavaScript semantics the dashboard relies on: optional JSON fields,
 * truthiness as used by `x || d` and `x ? a : b`, ASCII `toLowerCase` and
 * `String.prototype.includes`.
 */
module Js {

  /** An optional JSON field: None stands for both `undefined` and `null`. */
  datatype Option<+T> = None | Some(value: T)

  /** Truthiness of an optional number: absent and `0` are falsy (JSON carries no NaN). */
  predicate Truthy(x: Option<real>) {
    x.Some? && x.value != 0.0
  }

  /** Truthiness of an optional string: absent and `""` are falsy. */
  predicate TruthyText(s: Option<string>) {
    s.Some? && s.value != ""
  }

  /** Truthiness of an optional boolean: only a present `true` is truthy. */
  predicate TruthyFlag(b: Option<bool>) {
    b == Some(true)
  }

  /** `x || d` on an optional number. */
  function Or(x: Option<real>, d: real): real {
    if Truthy(x) then x.value else d
  }

  /** `x || d` on an optional string. */
  function OrText(s: Option<string>, d: string): string {
    if TruthyText(s) then s.value else d
  }

  /** `x || d` is `d` exactly when `x` is falsy or equals `d`; in particular a present 0 yields `d`. */
  lemma OrFallsBack(x: Option<real>, d: real)
    ensures Or(x, d) == d <==> (!Truthy(x) || x.value == d)
    ensures Or(Some(0.0), d) == d && Or(None, d) == d
    ensures d != 0.0 ==> Or(x, d) != 0.0
  {
  }

  /** ASCII lowercasing of one character. */
  function LowerChar(c: char): char {
    if 'A' <= c <= 'Z' then (c as int + 32) as char else c
  }

  /** `toLowerCase`, restricted to ASCII letters. */
  function Lower(s: string): (r: string)
    ensures |r| == |s|
    ensures forall k :: 0 <= k < |s| ==> r[k] == LowerChar(s[k])
  {
    seq(|s|, k requires 0 <= k < |s| => LowerChar(s[k]))
  }

  /** Lowercasing twice is lowercasing once, and a lowercased string has no upper-case ASCII letter. */
  lemma LowerIdempotent(s: string)
    ensures Lower(Lower(s)) == Lower(s)
    ensures forall k :: 0 <= k < |s| ==> !('A' <= Lower(s)[k] <= 'Z')
  {
  }

  /** `hay.includes(needle)`. */
  predicate Contains(hay: string, needle: string)
    ensures Contains(hay, needle) ==> |needle| <= |hay|
    ensures needle == hay ==> Contains(hay, needle)
    decreases |hay|
  {
    if |needle| > |hay| then false
    else hay[..|needle|] == needle || Contains(hay[1..], needle)
  }

  /** `needle` occurs in `hay` starting at offset `i`. */
  predicate OccursAt(hay: string, needle: string, i: int) {
    0 <= i <= |hay| - |needle| && hay[i..i + |needle|] == needle
  }

  /** An occurrence at offset `i > 0` is an occurrence at `i - 1` in the string without its first character. */
  lemma OccursShift(hay: string, needle: string, i: int)
    requires 0 < i && hay != []
    ensures OccursAt(hay, needle, i) <==> OccursAt(hay[1..], needle, i - 1)
  {
    if 0 < i <= |hay| - |needle| {
      assert hay[i..i + |needle|] == hay[1..][i - 1..i - 1 + |needle|];
    }
  }

  /** `includes` agrees with its definition as occurrence at some offset. */
  lemma {:induction false} ContainsIff(hay: string, needle: string)
    ensures Contains(hay, needle) <==> exists i :: OccursAt(hay, needle, i)
    decreases |hay|
  {
    if |needle| <= |hay| {
      if hay[..|needle|] == needle {
        assert OccursAt(hay, needle, 0);
      } else {
        ContainsIff(hay[1..], needle);
        if Contains(hay[1..], needle) {
          var i :| OccursAt(hay[1..], needle, i);
          OccursShift(hay, needle, i + 1);
        } else {
          forall i | 0 <= i <= |hay| - |needle|
            ensures !OccursAt(hay, needle, i)
          {
            if i > 0 {
              OccursShift(hay, needle, i);
            }
          }
        }
      }
    }
  }

  /** Every string includes the empty string. */
  lemma ContainsEmpty(hay: string)
    ensures Contains(hay, "")
  {
  }
}
