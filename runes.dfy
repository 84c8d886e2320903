/** Runes as the game handles them.  A Go rune is an integer code point, and
    every case conversion in the game is plain arithmetic on it (adding or
    subtracting 32), applied under three slightly different guards.  This
    module names each of those folds once, next to a reference definition of
    ASCII case, and proves how they relate. */
module Runes {

  /** A Go `rune` (int32).  Code points never come near the int32 bounds, so
      the +32/-32 arithmetic below cannot wrap. */
  type Rune = int

  predicate IsUpper(r: Rune) { 'A' as int <= r <= 'Z' as int }

  predicate IsLower(r: Rune) { 'a' as int <= r <= 'z' as int }

  predicate IsAsciiLetter(r: Rune) { IsUpper(r) || IsLower(r) }

  predicate AllAsciiLetters(w: seq<Rune>) { forall i :: 0 <= i < |w| ==> IsAsciiLetter(w[i]) }

  /** Reference ASCII upper case: the letter itself, ignoring its case. */
  function ToUpper(r: Rune): Rune { if IsLower(r) then r - 32 else r }

  /** The fold LetterInWord and IsThisTheWord apply to the guessed rune:
      'A'..'Z' are moved to 'a'..'z', anything else is kept. */
  function ToLower(r: Rune): Rune { if IsUpper(r) then r + 32 else r }

  /** Whether the target rune `t` is an occurrence of the guessed rune `g`:
      `t` equals the lowered guess, or the lowered guess minus 32.  Both
      LetterInWord and IsThisTheWord use exactly this test. */
  predicate SameLetter(t: Rune, g: Rune) { t == ToLower(g) || t == ToLower(g) - 32 }

  /** The key under which UsedLetter records, and UsedVerif looks up, a
      single rune: anything outside 'A'..'Z' is shifted down by 32. */
  function LetterKey(r: Rune): Rune { if r < 'A' as int || r > 'Z' as int then r - 32 else r }

  /** The key under which UsedWord records, and UsedVerif looks up, a word:
      every rune outside 'a'..'z' is shifted up by 32. */
  function WordKey(w: seq<Rune>): (k: seq<Rune>)
    ensures |k| == |w|
  {
    seq(|w|, i requires 0 <= i < |w| => WordKeyRune(w[i]))
  }

  function WordKeyRune(r: Rune): Rune { if r < 'a' as int || r > 'z' as int then r + 32 else r }

  /** A revealed rune is itself a guess for the same letter: lowering a guess
      again changes nothing, so SameLetter does not care whether the guess was
      lowered first.  This is why a revealed position stays correct. */
  lemma SameLetterLowered(t: Rune, g: Rune)
    ensures SameLetter(t, ToLower(g)) <==> SameLetter(t, g)
    ensures !IsUpper(ToLower(g))
  {
  }

  /** Every rune is an occurrence of itself. */
  lemma SameLetterReflexive(t: Rune)
    ensures SameLetter(t, t)
  {
  }

  /** For a guess that is an ASCII letter, the game's occurrence test is
      exactly case-insensitive letter equality, whatever the target rune. */
  lemma SameLetterForLetterGuess(t: Rune, g: Rune)
    requires IsAsciiLetter(g)
    ensures SameLetter(t, g) <==> IsAsciiLetter(t) && ToUpper(t) == ToUpper(g)
  {
  }

  /** LetterKey lands in 'A'..'Z' exactly for the ASCII letters, and for them
      it is their upper case. */
  lemma LetterKeyOfLetters(r: Rune)
    ensures IsUpper(LetterKey(r)) <==> IsAsciiLetter(r)
    ensures IsAsciiLetter(r) ==> LetterKey(r) == ToUpper(r)
  {
  }

  /** On words made of ASCII letters, WordKey is lower case letter by letter,
      so two such words get the same key exactly when they differ only in case. */
  lemma WordKeyOfLetters(w: seq<Rune>, v: seq<Rune>)
    requires AllAsciiLetters(w) && AllAsciiLetters(v)
    ensures forall i :: 0 <= i < |w| ==> WordKey(w)[i] == ToLower(w[i])
    ensures WordKey(w) == WordKey(v) <==>
              |w| == |v| && forall i :: 0 <= i < |w| ==> ToUpper(w[i]) == ToUpper(v[i])
  {
    if |w| == |v| && forall i :: 0 <= i < |w| ==> ToUpper(w[i]) == ToUpper(v[i]) {
      forall i | 0 <= i < |w| ensures WordKey(w)[i] == WordKey(v)[i] {
        assert ToUpper(w[i]) == ToUpper(v[i]);
      }
    }
    if WordKey(w) == WordKey(v) {
      forall i | 0 <= i < |w| ensures ToUpper(w[i]) == ToUpper(v[i]) {
        assert WordKey(w)[i] == WordKey(v)[i];
      }
    }
  }
}
