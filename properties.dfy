/** What the game engine guarantees, stated over the functions of module
    Engine (which the methods of `HangManData` are proved to follow). */
module Properties {
  import opened Runes
  import opened Picking
  import opened Engine

  // ---------------------------------------------------------------------
  // Pre-reveal (SetWord)
  // ---------------------------------------------------------------------

  /** Whether position `k` shows a rune naming the target's rune there. */
  predicate Shows(s: State, k: int) {
    0 <= k < |s.toFind| && k < |s.word| && SameLetter(s.toFind[k], s.word[k])
  }

  /** One pre-revealed position: it is a hit, so nothing is charged; the
      target's rune is shown there; every position either keeps its rune or
      gets one naming the target's rune; and the letter is recorded at most
      once. */
  lemma RevealAtStep(s: State, i: nat)
    requires i < |s.toFind| <= |s.word|
    ensures var r := RevealAt(s, i);
      && r.attempts == s.attempts && r.positions == s.positions && r.listWord == s.listWord
      && Shows(r, i)
      && (forall k :: 0 <= k < |s.toFind| ==> r.word[k] == s.word[k] || Shows(r, k))
      && (forall k :: |s.toFind| <= k < |s.word| ==> r.word[k] == s.word[k])
      && (r.listLetter == s.listLetter || r.listLetter == s.listLetter + [LetterKey(s.toFind[i])])
      && (IsUpper(LetterKey(s.toFind[i])) ==> LetterKey(s.toFind[i]) in r.listLetter)
      && (UpperLetters(s) ==> UpperLetters(r))
      && (NoRepeats(s) ==> NoRepeats(r))
  {
    var c := s.toFind[i];
    var s1 := s.(word := s.word[i := c]);
    SameLetterReflexive(c);
    assert Occurs(s1.toFind, c);
    var t := LetterInWord(s1, c);
    assert t.word == Reveal(s1.word, s.toFind, c);
    forall k | 0 <= k < |s.toFind| && t.word[k] != s.word[k]
      ensures SameLetter(s.toFind[k], t.word[k])
    {
      SameLetterLowered(s.toFind[k], c);
    }
  }

  /** What the pre-reveal shows, by induction over the picked positions:
      nothing is charged, every picked position shows the target's rune,
      and no position gets a rune that does not name the target's. */
  lemma {:induction false} PreRevealShows(s: State, place: seq<nat>)
    requires |s.toFind| <= |s.word|
    requires forall j :: 0 <= j < |place| ==> place[j] < |s.toFind|
    ensures var r := PreReveal(s, place);
      && r.attempts == s.attempts && r.positions == s.positions && r.listWord == s.listWord
      && (forall j :: 0 <= j < |place| ==> Shows(r, place[j]))
      && (forall k :: 0 <= k < |s.toFind| ==> r.word[k] == s.word[k] || Shows(r, k))
      && (forall k :: |s.toFind| <= k < |s.word| ==> r.word[k] == s.word[k])
    decreases |place|
  {
    if place != [] {
      var n := |place| - 1;
      var front := place[..n];
      PreRevealShows(s, front);
      var p := PreReveal(s, front);
      RevealAtStep(p, place[n]);
      var r := RevealAt(p, place[n]);
      assert r == PreReveal(s, place);
      forall k | 0 <= k < |s.toFind| && Shows(p, k) ensures Shows(r, k) {
        assert r.word[k] == p.word[k] || Shows(r, k);
      }
      forall j | 0 <= j < |place| ensures Shows(r, place[j]) {
        if j < n {
          assert Shows(p, front[j]);
        }
      }
    }
  }

  /** What the pre-reveal records, by induction over the picked positions:
      the letter list only grows, every picked ASCII letter ends up in it,
      and it stays upper case and free of repeats. */
  lemma {:induction false} PreRevealLetters(s: State, place: seq<nat>)
    requires |s.toFind| <= |s.word|
    requires forall j :: 0 <= j < |place| ==> place[j] < |s.toFind|
    ensures var r := PreReveal(s, place);
      && s.listLetter <= r.listLetter
      && (forall j :: 0 <= j < |place| && IsUpper(LetterKey(s.toFind[place[j]])) ==>
            LetterKey(s.toFind[place[j]]) in r.listLetter)
      && (UpperLetters(s) ==> UpperLetters(r))
      && (NoRepeats(s) ==> NoRepeats(r))
    decreases |place|
  {
    if place != [] {
      var n := |place| - 1;
      var front := place[..n];
      PreRevealLetters(s, front);
      var p := PreReveal(s, front);
      RevealAtStep(p, place[n]);
      var r := RevealAt(p, place[n]);
      assert r == PreReveal(s, place);
      forall j | 0 <= j < |place| && IsUpper(LetterKey(s.toFind[place[j]]))
        ensures LetterKey(s.toFind[place[j]]) in r.listLetter
      {
        if j < n {
          assert LetterKey(s.toFind[front[j]]) in p.listLetter;
        }
      }
    }
  }

  /** The whole pre-reveal: both halves together. */
  lemma PreRevealFacts(s: State, place: seq<nat>)
    requires |s.toFind| <= |s.word|
    requires forall j :: 0 <= j < |place| ==> place[j] < |s.toFind|
    ensures var r := PreReveal(s, place);
      && r.attempts == s.attempts && r.positions == s.positions && r.listWord == s.listWord
      && (forall j :: 0 <= j < |place| ==> Shows(r, place[j]))
      && (forall k :: 0 <= k < |s.toFind| ==> r.word[k] == s.word[k] || Shows(r, k))
      && (forall k :: |s.toFind| <= k < |s.word| ==> r.word[k] == s.word[k])
      && s.listLetter <= r.listLetter
      && (forall j :: 0 <= j < |place| && IsUpper(LetterKey(s.toFind[place[j]])) ==>
            LetterKey(s.toFind[place[j]]) in r.listLetter)
      && (UpperLetters(s) ==> UpperLetters(r))
      && (NoRepeats(s) ==> NoRepeats(r))
  {
    PreRevealShows(s, place);
    PreRevealLetters(s, place);
  }

  /** The letter-record keys of the runes of `t` at the positions `place`. */
  function PickedKeys(t: seq<Rune>, place: seq<nat>): set<Rune> {
    set j | 0 <= j < |place| && place[j] < |t| :: LetterKey(t[place[j]])
  }

  /** The pre-reveal records nothing but the letter keys of the picked
      positions. */
  lemma {:induction false} PreRevealRecordsOnly(s: State, place: seq<nat>)
    requires |s.toFind| <= |s.word|
    requires forall j :: 0 <= j < |place| ==> place[j] < |s.toFind|
    ensures forall c :: c in PreReveal(s, place).listLetter ==>
              c in s.listLetter || c in PickedKeys(s.toFind, place)
    decreases |place|
  {
    if place != [] {
      var n := |place| - 1;
      var front := place[..n];
      PreRevealRecordsOnly(s, front);
      var p := PreReveal(s, front);
      RevealAtStep(p, place[n]);
      var r := RevealAt(p, place[n]);
      assert r == PreReveal(s, place);
      assert PickedKeys(s.toFind, place) == PickedKeys(s.toFind, front) + {LetterKey(s.toFind[place[n]])} by {
        forall j | 0 <= j < n ensures front[j] == place[j] { }
      }
    }
  }

  /** SetWord picks exactly `max(0, len/2 - 1)` distinct positions of the
      chosen word, and each of them shows the target's rune afterwards. */
  lemma SetWordReveals(s: State, dico: seq<seq<Rune>>, choice: nat, draws: seq<nat>)
    requires choice < |dico| - 1
    requires GoodDraws(dico[choice], draws)
    ensures var t := dico[choice];
            var place := Pick(draws, Visible(|t|), []);
            var r := SetWord(s, dico, choice, draws);
      && |place| == (if |t| / 2 - 1 <= 0 then 0 else |t| / 2 - 1)
      && Distinct(place)
      && (forall j :: 0 <= j < |place| ==> place[j] < |t| && Shows(r, place[j]))
  {
    var t := dico[choice];
    var place := Pick(draws, Visible(|t|), []);
    assert Elems([]) == {};
    PickLength(draws, Visible(|t|), []);
    PickDistinct(draws, Visible(|t|), []);
    PickBounded(draws, Visible(|t|), |t|);
    PreRevealFacts(s.(toFind := t, word := s.word + Blanks(|t|)), place);
  }

  /** Pre-reveals are free: SetWord leaves the attempts, the gallows stage
      and the recorded words as they were, and makes the masked word one
      placeholder-or-letter per rune of the chosen word longer. */
  lemma SetWordIsFree(s: State, dico: seq<seq<Rune>>, choice: nat, draws: seq<nat>)
    requires choice < |dico| - 1
    requires GoodDraws(dico[choice], draws)
    ensures var r := SetWord(s, dico, choice, draws);
      && r.attempts == s.attempts && r.positions == s.positions && r.listWord == s.listWord
      && r.toFind == dico[choice]
      && |r.word| == |s.word| + |dico[choice]|
  {
    var t := dico[choice];
    var place := Pick(draws, Visible(|t|), []);
    PickBounded(draws, Visible(|t|), |t|);
    PreRevealFacts(s.(toFind := t, word := s.word + Blanks(|t|)), place);
  }

  /** SetWord records a pre-revealed letter only when it is not recorded yet:
      recorded guesses stay free of repeats and upper-case, nothing recorded
      is lost, nothing but the letter keys of the picked positions is added,
      and every pre-revealed ASCII letter ends up recorded. */
  lemma SetWordRecordsOnce(s: State, dico: seq<seq<Rune>>, choice: nat, draws: seq<nat>)
    requires choice < |dico| - 1
    requires GoodDraws(dico[choice], draws)
    ensures var t := dico[choice];
            var place := Pick(draws, Visible(|t|), []);
            var r := SetWord(s, dico, choice, draws);
      && (NoRepeats(s) ==> NoRepeats(r))
      && (UpperLetters(s) ==> UpperLetters(r))
      && s.listLetter <= r.listLetter
      && (forall c :: c in r.listLetter ==> c in s.listLetter || c in PickedKeys(t, place))
      && (forall j :: 0 <= j < |place| && place[j] < |t| && IsAsciiLetter(t[place[j]]) ==>
            ToUpper(t[place[j]]) in r.listLetter)
  {
    var t := dico[choice];
    var place := Pick(draws, Visible(|t|), []);
    PickBounded(draws, Visible(|t|), |t|);
    var start := s.(toFind := t, word := s.word + Blanks(|t|));
    var r := SetWord(s, dico, choice, draws);
    assert r == PreReveal(start, place);
    PreRevealFacts(start, place);
    forall j | 0 <= j < |place| && place[j] < |t| && IsAsciiLetter(t[place[j]]) ensures ToUpper(t[place[j]]) in r.listLetter {
      LetterKeyOfLetters(t[place[j]]);
    }
    PreRevealRecordsOnly(start, place);
  }

  /** The last dictionary entry is never chosen: unless it also appears
      earlier in the dictionary, it is never the word to find. */
  lemma LastEntryNeverChosen(s: State, dico: seq<seq<Rune>>, choice: nat, draws: seq<nat>)
    requires choice < |dico| - 1
    requires GoodDraws(dico[choice], draws)
    requires dico[|dico| - 1] !in dico[..|dico| - 1]
    ensures SetWord(s, dico, choice, draws).toFind != dico[|dico| - 1]
  {
    SetWordIsFree(s, dico, choice, draws);
    assert dico[choice] == dico[..|dico| - 1][choice];
  }

  /** `setData` followed by `SetWord` starts a valid game: full budget,
      gallows not yet shown (10 + -1 == 9), nothing guessed by a word, no
      letter recorded twice. */
  lemma NewGameIsValid(s: State, dico: seq<seq<Rune>>, choice: nat, draws: seq<nat>)
    requires choice < |dico| - 1
    requires GoodDraws(dico[choice], draws)
    ensures var g := SetWord(SetData(s), dico, choice, draws);
      && Valid(g) && NoRepeats(g)
      && g.attempts == StartAttempts && g.positions == StartPosition
      && g.toFind == dico[choice] && g.listWord == []
  {
    var s0 := SetData(s);
    var t := dico[choice];
    var place := Pick(draws, Visible(|t|), []);
    PickBounded(draws, Visible(|t|), |t|);
    var start := s0.(toFind := t, word := s0.word + Blanks(|t|));
    PreRevealFacts(start, place);
    var g := SetWord(s0, dico, choice, draws);
    assert g == PreReveal(start, place);
    forall k | 0 <= k < |g.word| ensures g.word[k] == Placeholder || SameLetter(g.toFind[k], g.word[k]) {
      assert g.word[k] == start.word[k] || Shows(g, k);
    }
  }

  // ---------------------------------------------------------------------
  // Guess evaluation (mainMecanics)
  // ---------------------------------------------------------------------

  /** The lockstep of attempts and gallows stage, the length of the masked
      word, the absence of wrong letters in it and the upper-case letter list
      all survive any guess made while attempts remain, a wrong word at stage
      8 or 9 included (it clamps to stage 9 and zero attempts). */
  lemma MainMecanicsKeepsValid(s: State, input: seq<Rune>)
    requires Valid(s) && s.attempts >= 1
    requires |input| > 0
    ensures Valid(MainMecanics(s, input).0)
    ensures MainMecanics(s, input).0.toFind == s.toFind
  {
    var r := MainMecanics(s, input).0;
    if |input| > 1 {
      if IsThisTheWord(s, input) {
        forall k | 0 <= k < |r.word| ensures SameLetter(r.toFind[k], r.word[k]) {
          SameLetterReflexive(r.toFind[k]);
        }
      }
    } else {
      var c := input[0];
      var t := LetterInWord(s, c);
      if Occurs(s.toFind, c) {
        forall k | 0 <= k < |t.word| ensures t.word[k] == Placeholder || SameLetter(t.toFind[k], t.word[k]) {
          SameLetterLowered(s.toFind[k], c);
        }
      }
      LetterKeyOfLetters(c);
    }
  }

  /** A letter guess, seen through plain ASCII case: a hit is any letter of
      the word equal to the guess ignoring case; it shows the lower-case guess
      at every such position, leaves the others and the counters alone and
      clears the failure flag; a miss leaves the masked word alone, costs one
      attempt and one gallows stage and sets the flag.  Either way the upper
      case of the letter is appended to the letter list, even when it is
      there already. */
  lemma LetterGuess(s: State, c: Rune)
    requires IsAsciiLetter(c)
    requires |s.toFind| <= |s.word|
    ensures var (r, o) := MainMecanics(s, [c]);
            var hit := exists k :: 0 <= k < |s.toFind| && IsAsciiLetter(s.toFind[k]) && ToUpper(s.toFind[k]) == ToUpper(c);
      && o == Continue
      && |r.word| == |s.word| && r.toFind == s.toFind && r.listWord == s.listWord
      && r.listLetter == s.listLetter + [ToUpper(c)]
      && (hit ==>
            && r.attempts == s.attempts && r.positions == s.positions && !r.lastFail
            && (forall k :: 0 <= k < |s.word| ==>
                  r.word[k] == if k < |s.toFind| && IsAsciiLetter(s.toFind[k]) && ToUpper(s.toFind[k]) == ToUpper(c)
                               then ToLower(c) else s.word[k]))
      && (!hit ==>
            && r.word == s.word && r.attempts == s.attempts - 1
            && r.positions == s.positions + 1 && r.lastFail)
  {
    forall t ensures SameLetter(t, c) <==> IsAsciiLetter(t) && ToUpper(t) == ToUpper(c) {
      SameLetterForLetterGuess(t, c);
    }
    LetterKeyOfLetters(c);
    var hit := exists k :: 0 <= k < |s.toFind| && IsAsciiLetter(s.toFind[k]) && ToUpper(s.toFind[k]) == ToUpper(c);
    assert hit <==> Occurs(s.toFind, c);
  }

  /** Guessing a letter in lower or in upper case has the very same effect. */
  lemma LetterGuessIgnoresCase(s: State, c: Rune)
    requires IsAsciiLetter(c)
    requires |s.toFind| <= |s.word|
    ensures MainMecanics(s, [ToLower(c)]) == MainMecanics(s, [ToUpper(c)])
  {
    var lo, up := ToLower(c), ToUpper(c);
    assert ToLower(lo) == ToLower(up);
    assert Occurs(s.toFind, lo) == Occurs(s.toFind, up);
    if Occurs(s.toFind, lo) {
      assert Reveal(s.word, s.toFind, lo) == Reveal(s.word, s.toFind, up);
    }
    assert LetterKey(lo) == LetterKey(up);
  }

  /** A single rune that is not an ASCII letter is never recorded, so it can
      be guessed again and again; when it does not occur in the word, every
      one of those guesses costs an attempt. */
  lemma NonLetterChargedEveryTime(s: State, c: Rune)
    requires Valid(s) && s.attempts >= 2
    requires !IsAsciiLetter(c) && !Occurs(s.toFind, c)
    ensures var (r, o) := Submit(s, [c]);
      && o == Continue && r.listLetter == s.listLetter && r.attempts == s.attempts - 1
      && Submit(r, [c]).1 == Continue && Submit(r, [c]).0.attempts == s.attempts - 2
  {
    LetterKeyOfLetters(c);
    assert !UsedVerif(s, [c]);
  }

  /** IsThisTheWord is false for a word of another length, true for the word
      to find itself, and on words made of ASCII letters it is equality
      ignoring case. */
  lemma IsThisTheWordFacts(s: State, w: seq<Rune>)
    ensures |w| != |s.toFind| ==> !IsThisTheWord(s, w)
    ensures IsThisTheWord(s, s.toFind)
    ensures AllAsciiLetters(w) && AllAsciiLetters(s.toFind) ==>
              (IsThisTheWord(s, w) <==>
                 |w| == |s.toFind| && forall i :: 0 <= i < |w| ==> ToUpper(w[i]) == ToUpper(s.toFind[i]))
  {
    forall i | 0 <= i < |s.toFind| ensures SameLetter(s.toFind[i], s.toFind[i]) {
      SameLetterReflexive(s.toFind[i]);
    }
    if AllAsciiLetters(w) && AllAsciiLetters(s.toFind) && |w| == |s.toFind| {
      forall i | 0 <= i < |w| ensures SameLetter(s.toFind[i], w[i]) <==> ToUpper(w[i]) == ToUpper(s.toFind[i]) {
        SameLetterForLetterGuess(s.toFind[i], w[i]);
      }
    }
  }

  /** A word guess wins exactly when it is the word to find; the win shows
      the whole word, clears the failure flag and touches neither the
      counters nor the recorded guesses.  It is checked before STOP and QUIT,
      so those tokens win a game whose word they are. */
  lemma WordGuessWins(s: State, w: seq<Rune>)
    requires |w| > 1
    requires |s.toFind| <= |s.word|
    ensures var (r, o) := MainMecanics(s, w);
      && (o == Won <==> IsThisTheWord(s, w))
      && (o == Won ==>
            && r.word == s.toFind && r.toFind == s.toFind && !r.lastFail
            && r.attempts == s.attempts && r.positions == s.positions
            && r.listWord == s.listWord && r.listLetter == s.listLetter)
      && (o == SaveAndExit <==> !IsThisTheWord(s, w) && w == StopToken)
      && (o == Exit <==> !IsThisTheWord(s, w) && w == QuitToken)
      && (o == SaveAndExit || o == Exit ==> r == s)
  {
    assert StopToken != QuitToken by {
      assert StopToken[0] != QuitToken[0];
    }
  }

  /** A wrong word is recorded under its WordKey and costs two attempts, but
      never drives the attempts below zero nor the gallows past its last
      stage. */
  lemma WrongWordCostsTwo(s: State, w: seq<Rune>)
    requires Valid(s)
    requires |w| > 1 && !IsThisTheWord(s, w) && w != StopToken && w != QuitToken
    ensures var (r, o) := MainMecanics(s, w);
      && o == Continue && r.lastFail && r.word == s.word && r.toFind == s.toFind
      && r.listWord == s.listWord + [WordKey(w)] && r.listLetter == s.listLetter
      && r.attempts == (if s.attempts >= 2 then s.attempts - 2 else 0)
      && r.positions == (if s.positions <= LastPosition - 2 then s.positions + 2 else LastPosition)
  {
  }

  // ---------------------------------------------------------------------
  // Recording guesses and refusing repeats (UsedLetter, UsedWord, UsedVerif)
  // ---------------------------------------------------------------------

  /** What is recorded is found again: after a wrong word, UsedVerif knows
      that word; after a letter guess with an ASCII letter, UsedVerif knows
      that letter, in either case. */
  lemma RecordThenReject(s: State, input: seq<Rune>)
    requires |input| > 0
    requires |s.toFind| <= |s.word|
    requires MainMecanics(s, input).1 == Continue
    requires |input| > 1 || IsAsciiLetter(input[0])
    ensures UsedVerif(MainMecanics(s, input).0, input)
    ensures |input| == 1 ==>
              UsedVerif(MainMecanics(s, input).0, [ToLower(input[0])]) &&
              UsedVerif(MainMecanics(s, input).0, [ToUpper(input[0])])
  {
    if |input| == 1 {
      var c := input[0];
      LetterKeyOfLetters(c);
      LetterKeyOfLetters(ToLower(c));
      LetterKeyOfLetters(ToUpper(c));
    }
  }

  /** Submitting the same guess twice: the second time it is refused and
      nothing changes. */
  lemma RepeatIsRejected(s: State, input: seq<Rune>)
    requires |s.toFind| <= |s.word|
    requires Submit(s, input).1 == Continue
    requires |input| > 1 || IsAsciiLetter(input[0])
    ensures var r := Submit(s, input).0;
      Submit(r, input) == (r, Rejected)
  {
    RecordThenReject(s, input);
  }

  /** The callers' guarded step keeps a valid game valid, and keeps every
      recorded guess unique, whenever an attempt is left.  This covers the
      first guess of every loop, which is evaluated before `endGame` is ever
      asked, even when the pre-reveal already showed the whole word. */
  lemma SubmitKeepsValid(s: State, input: seq<Rune>)
    requires Valid(s) && NoRepeats(s) && s.attempts >= 1
    ensures Valid(Submit(s, input).0) && NoRepeats(Submit(s, input).0)
  {
    if |input| > 0 && !UsedVerif(s, input) {
      MainMecanicsKeepsValid(s, input);
      var r := MainMecanics(s, input).0;
      if |input| == 1 {
        var c := input[0];
        assert LetterKey(c) !in s.listLetter;
        assert r.listLetter == s.listLetter || r.listLetter == s.listLetter + [LetterKey(c)];
      } else {
        assert WordKey(input) !in s.listWord;
      }
    }
  }

  // ---------------------------------------------------------------------
  // End of game (endGame)
  // ---------------------------------------------------------------------

  /** A win from a live game is never a loss: attempts remain, and when the
      word has no placeholder glyph in it the game is over. */
  lemma WinEndsGame(s: State, w: seq<Rune>)
    requires Valid(s) && s.attempts >= 1
    requires |w| > 0 && MainMecanics(s, w).1 == Won
    ensures MainMecanics(s, w).0.attempts >= 1
    ensures Placeholder !in s.toFind ==> EndGame(MainMecanics(s, w).0)
  {
  }

  /** Misses alone lose the game: a state with one attempt left that misses
      a letter reaches zero attempts and the end, whatever the masked word. */
  lemma LastMissLoses(s: State, c: Rune)
    requires Valid(s) && s.attempts == 1
    requires !Occurs(s.toFind, c)
    ensures var r := MainMecanics(s, [c]).0;
      r.attempts == 0 && r.positions == LastPosition && EndGame(r)
  {
  }
}
