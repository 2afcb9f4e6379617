/** ASCII case folding, standing in for Python's `str.lower()` in the
    duplicate-quest check of the adventurer service. */
module Text {

  /** True for the 26 upper-case ASCII letters. */
  predicate IsUpper(c: char) {
    'A' <= c <= 'Z'
  }

  /** The lower-case form of one character; only ASCII letters change. */
  function LowerChar(c: char): char {
    if IsUpper(c) then (c as int - 'A' as int + 'a' as int) as char else c
  }

  /** `s` with every upper-case ASCII letter replaced by its lower-case
      letter: the result has the same length, holds no capital letter, and
      differs from `s` only where `s` had a capital, by the fixed offset
      between the two alphabets. */
  function Lower(s: string): (r: string)
    ensures |r| == |s|
    ensures forall i :: 0 <= i < |r| ==> !IsUpper(r[i])
    ensures forall i :: 0 <= i < |s| ==>
              r[i] == s[i] || (IsUpper(s[i]) && r[i] as int == s[i] as int + 32)
  {
    seq(|s|, i requires 0 <= i < |s| => LowerChar(s[i]))
  }

  /** Two names are the same quest name when they agree after folding. */
  predicate SameName(a: string, b: string) {
    Lower(a) == Lower(b)
  }

  /** Names that agree letter by letter up to ASCII case are the same name,
      and only those: the folded forms are equal exactly when the two names
      have the same length and every position agrees after folding. */
  lemma SameNameIff(a: string, b: string)
    ensures SameName(a, b) <==>
              |a| == |b| && forall i :: 0 <= i < |a| ==> LowerChar(a[i]) == LowerChar(b[i])
  {
  }
}
