/** The snake-case conversion of the `convert_case` crate (`to_case(Case::Snake)`) is not
    modelled character by character: every operation that converts takes the conversion
    as a parameter `snake`, and these predicates are the assumptions made about it. */
module Casing {
  import opened Strings

  /** Converting never adds an opening brace (convert_case only lowercases, drops word
      separators and inserts underscores). */
  ghost predicate KeepsBraceCount(snake: string -> string)
  {
    forall s :: Count('{', snake(s)) <= Count('{', s)
  }

  /** Converting an already converted name changes nothing. */
  ghost predicate Idempotent(snake: string -> string)
  {
    forall s :: snake(snake(s)) == snake(s)
  }

  /** The assumptions can be met: ASCII lowercasing is a conversion satisfying both. */
  lemma LowercasingMeetsLaws()
    ensures KeepsBraceCount(AsciiLower)
    ensures Idempotent(AsciiLower)
  {
    forall s ensures Count('{', AsciiLower(s)) <= Count('{', s) {
      LowerKeepsBraces(s);
    }
    forall s ensures AsciiLower(AsciiLower(s)) == AsciiLower(s) {
      assert forall i :: 0 <= i < |s| ==> AsciiLowerChar(AsciiLowerChar(s[i])) == AsciiLowerChar(s[i]);
    }
  }

  lemma {:induction false} LowerKeepsBraces(s: string)
    ensures Count('{', AsciiLower(s)) == Count('{', s)
  {
    if s != [] {
      LowerKeepsBraces(s[1..]);
      assert AsciiLower(s)[1..] == AsciiLower(s[1..]);
    }
  }
}
