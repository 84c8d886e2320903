/** The game state of the hangman game as a value, and one function per
    method of `HangManData` giving the state that method leaves behind.  The
    class in module HangMan runs the same steps imperatively and is proved to
    end in exactly these states; the lemmas of module Properties are stated
    over these functions. */
module Engine {
  import opened Runes
  import opened Picking

  /** The glyph of a position not yet revealed. */
  const Placeholder: Rune := '_' as int

  /** Attempts a new game starts with, and the gallows stage it starts at. */
  const StartAttempts: int := 10
  const StartPosition: int := -1

  /** The last gallows stage; a wrong word never pushes the stage past it. */
  const LastPosition: int := 9

  /** The guess that saves the game and ends the session. */
  const StopToken: seq<Rune> := ['S' as int, 'T' as int, 'O' as int, 'P' as int]

  /** The guess that ends the session without saving. */
  const QuitToken: seq<Rune> := ['Q' as int, 'U' as int, 'I' as int, 'T' as int]

  /** The fields of `HangManData`: the masked word shown to the player, the
      word to find, attempts left, gallows stage, recorded word guesses,
      recorded letter guesses, and whether the last guess failed. */
  datatype State = State(
    word: seq<Rune>,
    toFind: seq<Rune>,
    attempts: int,
    positions: int,
    listWord: seq<seq<Rune>>,
    listLetter: seq<Rune>,
    lastFail: bool)

  /** What one guess leads to.  `Won` and `Continue` are the `true` and
      `false` the source returns; `SaveAndExit` and `Exit` stand for the
      session ending after the STOP and QUIT tokens; `Rejected` is the
      callers' refusal of an empty or already recorded guess. */
  datatype Outcome = Continue | Won | SaveAndExit | Exit | Rejected

  function Blanks(n: nat): (b: seq<Rune>)
    ensures |b| == n
  {
    seq(n, _ => Placeholder)
  }

  /** The state a game lives in between guesses: the masked word is as long
      as the word to find and shows no wrong letter, attempts and gallows
      stage add up to 9 within their ranges, and only upper-case letters are
      recorded as letter guesses. */
  predicate Valid(s: State) {
    && |s.word| == |s.toFind|
    && s.attempts + s.positions == LastPosition
    && StartPosition <= s.positions <= LastPosition
    && UpperLetters(s)
    && (forall k :: 0 <= k < |s.word| ==> s.word[k] == Placeholder || SameLetter(s.toFind[k], s.word[k]))
  }

  /** Every recorded letter guess is in 'A'..'Z'. */
  predicate UpperLetters(s: State) { forall c :: c in s.listLetter ==> IsUpper(c) }

  /** No guess is recorded twice. */
  predicate NoRepeats(s: State) {
    && (forall i, j :: 0 <= i < j < |s.listLetter| ==> s.listLetter[i] != s.listLetter[j])
    && (forall i, j :: 0 <= i < j < |s.listWord| ==> s.listWord[i] != s.listWord[j])
  }

  /** `setData`: a blank game with the full budget. */
  function SetData(s: State): State {
    s.(word := [], toFind := [], attempts := StartAttempts, positions := StartPosition,
       listLetter := [], listWord := [])
  }

  /** Whether some rune of `target` is an occurrence of the guess `g`. */
  predicate Occurs(target: seq<Rune>, g: Rune) {
    exists k :: 0 <= k < |target| && SameLetter(target[k], g)
  }

  /** `word` with every occurrence of `g` in `target` replaced by the lowered guess. */
  function Reveal(word: seq<Rune>, target: seq<Rune>, g: Rune): (w: seq<Rune>)
    requires |target| <= |word|
    ensures |w| == |word|
  {
    seq(|word|, k requires 0 <= k < |word| =>
      if k < |target| && SameLetter(target[k], g) then ToLower(g) else word[k])
  }

  /** `LetterInWord`: a hit reveals every occurrence and clears the failure
      flag; a miss costs one attempt and moves the gallows one stage on. */
  function LetterInWord(s: State, g: Rune): State
    requires |s.toFind| <= |s.word|
  {
    if Occurs(s.toFind, g) then s.(word := Reveal(s.word, s.toFind, g), lastFail := false)
    else s.(lastFail := true, attempts := s.attempts - 1, positions := s.positions + 1)
  }

  /** `UsedLetter`: records the LetterKey of `g` when that key is an upper-case letter. */
  function UsedLetter(s: State, g: Rune): State {
    if IsUpper(LetterKey(g)) then s.(listLetter := s.listLetter + [LetterKey(g)]) else s
  }

  /** `UsedWord`: records the WordKey of `w`. */
  function UsedWord(s: State, w: seq<Rune>): State {
    s.(listWord := s.listWord + [WordKey(w)])
  }

  /** `UsedVerif`: whether a guess is already recorded; a guess of more than
      one rune is looked up among the words, a single rune among the letters. */
  predicate UsedVerif(s: State, input: seq<Rune>)
    requires |input| > 0
  {
    if |input| > 1 then WordKey(input) in s.listWord else LetterKey(input[0]) in s.listLetter
  }

  /** `IsThisTheWord`: same length, and every guessed rune names the target's rune. */
  predicate IsThisTheWord(s: State, w: seq<Rune>) {
    |w| == |s.toFind| && forall i :: 0 <= i < |w| ==> SameLetter(s.toFind[i], w[i])
  }

  /** A wrong word is recorded and costs two attempts, the gallows stage
      being clamped at its last stage (and the attempts then at zero). */
  function WrongWord(s: State, w: seq<Rune>): State {
    var t := UsedWord(s, w).(attempts := s.attempts - 2, positions := s.positions + 2, lastFail := true);
    if t.positions > LastPosition then t.(positions := LastPosition, attempts := 0) else t
  }

  /** `mainMecanics`: a guess of several runes is first compared with the
      word to find, then with the STOP and QUIT tokens, and is otherwise a
      wrong word; a single rune is a letter guess, evaluated then recorded. */
  function MainMecanics(s: State, input: seq<Rune>): (State, Outcome)
    requires |input| > 0
    requires |s.toFind| <= |s.word|
  {
    if |input| > 1 then
      if IsThisTheWord(s, input) then (s.(word := s.toFind, lastFail := false), Won)
      else if input == StopToken then (s, SaveAndExit)
      else if input == QuitToken then (s, Exit)
      else (WrongWord(s, input), Continue)
    else
      (UsedLetter(LetterInWord(s, input[0]), input[0]), Continue)
  }

  /** The callers' guard around `mainMecanics`: an empty or already recorded
      guess is refused without touching the state. */
  function Submit(s: State, input: seq<Rune>): (State, Outcome)
    requires |s.toFind| <= |s.word|
  {
    if |input| == 0 || UsedVerif(s, input) then (s, Rejected) else MainMecanics(s, input)
  }

  /** `endGame`: no attempt left, or no placeholder left. */
  predicate EndGame(s: State) {
    s.attempts <= 0 || Placeholder !in s.word
  }

  /** One pre-revealed position of `SetWord`: the target's rune is copied in,
      then guessed as a letter, then recorded unless already recorded. */
  function RevealAt(s: State, i: nat): (r: State)
    requires i < |s.toFind| <= |s.word|
    ensures |r.word| == |s.word| && r.toFind == s.toFind
  {
    var c := s.toFind[i];
    var t := LetterInWord(s.(word := s.word[i := c]), c);
    if UsedVerif(t, [c]) then t else UsedLetter(t, c)
  }

  /** The pre-reveal of every position of `place`, in order. */
  function PreReveal(s: State, place: seq<nat>): (r: State)
    requires |s.toFind| <= |s.word|
    requires forall i :: 0 <= i < |place| ==> place[i] < |s.toFind|
    ensures |r.word| == |s.word| && r.toFind == s.toFind
    decreases |place|
  {
    if place == [] then s
    else RevealAt(PreReveal(s, place[..|place| - 1]), place[|place| - 1])
  }

  /** The number of positions `SetWord` pre-reveals in a word of length `n`. */
  function Visible(n: nat): int { n / 2 - 1 }

  /** The draws `SetWord` may be given: every one a position of the chosen
      word, and enough distinct ones for the rejection loop to stop. */
  predicate GoodDraws(t: seq<Rune>, draws: seq<nat>) {
    && (forall d :: d in draws ==> d < |t|)
    && Visible(|t|) <= |Elems(draws)|
  }

  /** `SetWord`: the word at index `choice` becomes the word to find, the
      masked word gets one placeholder per rune, and the positions picked from
      `draws` are pre-revealed. */
  function SetWord(s: State, dico: seq<seq<Rune>>, choice: nat, draws: seq<nat>): (r: State)
    requires choice < |dico| - 1
    requires forall d :: d in draws ==> d < |dico[choice]|
  {
    var t := dico[choice];
    var place := Pick(draws, Visible(|t|), []);
    PickBounded(draws, Visible(|t|), |t|);
    PreReveal(s.(toFind := t, word := s.word + Blanks(|t|)), place)
  }
}
