# Hangman game engine in Dafny

A model of the game-state engine of a terminal hangman game written in Go
(`hangman.go`). The engine is the `HangManData` record and the methods that
change or query it. The game is set up with `setData` and `SetWord`. A guess
goes through `mainMecanics`, which calls `LetterInWord` and `UsedLetter` for a
single rune, or `IsThisTheWord` and `UsedWord` for a longer guess. `UsedVerif`
lets the game loops refuse a guess they have already seen. `endGame` says when
the game is over.

The model has five modules:

- `Runes` (runes.dfy): the three case folds the game uses, each defined once.
  - `ToLower` lowers the guess before it is compared with the word.
  - `LetterKey` moves every rune outside `'A'..'Z'` down by 32 before it is recorded.
  - `WordKey` moves every rune outside `'a'..'z'` up by 32 before a word is recorded.
  - A reference definition of ASCII case (`ToUpper`, `IsAsciiLetter`) sits beside them, with lemmas relating the two.
- `Picking` (picking.dfy): SetWord's rejection loop as a function, `Pick`, over a given sequence of random draws.
- `Engine` (engine.dfy): the record as a value (`State`) and one function per Go method giving the state that method leaves behind. It also holds `Valid`, the state invariant (lengths, the 9-sum lockstep of attempts and gallows stage, upper-case letter list, no wrong letter shown), and `Submit`, the game loops' guard around `mainMecanics`.
- `HangMan` (hangman.dfy): the class `HangManData` with the record's seven fields. Its methods run the source's loops step by step. Each changing method ensures `Snapshot() == Engine.X(old(Snapshot()), …)`. Each query method (`IsThisTheWord`, `UsedVerif`, `EndGame`) returns exactly the matching Engine predicate.
- `Properties` (properties.dfy): what the engine guarantees, proved over the Engine functions.

Runes are Go's `rune`, an integer code point, modelled as `int`. Strings are sequences of runes.

Some behaviours of the code may surprise a reader. The model keeps each of them as written:

- A hit writes the lowered guess into the masked word, not the word's own rune (hangman.go:136).
- Only ASCII letters are ever recorded as letter guesses. Every other rune is shifted out of 'A'..'Z' and dropped (hangman.go:169-174).
- `UsedLetter` appends without checking for a duplicate, although its comment at hangman.go:167 says it records a letter not yet used. Only the callers' `UsedVerif` guard keeps the list free of repeats.
- The occurrence test also pairs some non-letters. For example, a guess of `[` reveals a `;` (hangman.go:126-129).
- In `mainMecanics` the win check comes before the `STOP`/`QUIT` check (hangman.go:899-914).
- The last dictionary entry can never be chosen, because the index is drawn below `len(dico) - 1` (hangman.go:85).

## Model

| member | source | states |
|---|---|---|
| Runes.SameLetterForLetterGuess | hangman.go:125-131 | for a guess that is an ASCII letter, the game's occurrence test holds exactly for the letters equal to it ignoring case |
| Runes.SameLetterLowered | hangman.go:133-137 | writing the lowered guess into the masked word still names the target's rune, and the lowered guess is never upper case |
| Runes.LetterKeyOfLetters | hangman.go:168-175 | the letter-record key is in 'A'..'Z' exactly for ASCII letters, and is then their upper case |
| Runes.WordKeyOfLetters | hangman.go:180-184 | on all-letter words the word-record key is lower case, so two words share a key iff they differ only in case |
| Runes.WordKey | hangman.go:178-186 | folding a word keeps its length |
| Picking.Pick | hangman.go:97-110 | the kept positions extend those already kept and come from the draws |
| Picking.PickBounded | hangman.go:98 | every kept position is below the bound all draws respect (the word's length) |
| Picking.PickDistinct | hangman.go:99-106 | the rejection loop never keeps a position twice |
| Picking.PickLength | hangman.go:88-110 | with enough distinct draws the loop keeps exactly max(0, len/2 - 1) positions |
| Engine.Reveal | hangman.go:133-137 | revealing a letter keeps the masked word's length |
| Engine.RevealAt | hangman.go:113-119 | one pre-revealed position keeps the masked word's length and the word to find |
| Engine.PreReveal | hangman.go:113-119 | the whole pre-reveal keeps the masked word's length and the word to find |
| HangMan.FoldWord | hangman.go:180-184 | the fold loop returns exactly the word-record key of its input |
| HangMan.PickPositions | hangman.go:94-110 | the rejection loop stops and keeps exactly the positions Pick gives |
| HangMan.HangManData.constructor | hangman.go:731 | a record with Go's zero values |
| HangMan.HangManData.SetData | hangman.go:73-80 | empty word, word to find and lists, 10 attempts, gallows stage -1, failure flag untouched |
| HangMan.HangManData.SetWord | hangman.go:83-120 | the new state is Engine.SetWord of the old: dictionary entry `choice` (below len-1), one placeholder per rune, positions picked from the draws pre-revealed |
| HangMan.HangManData.RevealAll | hangman.go:113-119 | the pre-reveal loop leaves exactly Engine.PreReveal of the old state |
| HangMan.HangManData.RevealAt | hangman.go:113-119 | one pre-reveal: copy the rune in, guess it as a letter, record it unless UsedVerif already knows it |
| HangMan.HangManData.LetterInWord | hangman.go:123-143 | the new state is Engine.LetterInWord of the old: a hit writes the lowered guess at every occurrence and clears the flag; a miss costs one attempt and one stage and sets the flag |
| HangMan.HangManData.IsThisTheWord | hangman.go:146-164 | returns exactly whether the guess has the word's length and names its rune at every position |
| HangMan.HangManData.UsedLetter | hangman.go:167-175 | appends the letter-record key when it is in 'A'..'Z' and nothing otherwise |
| HangMan.HangManData.UsedWord | hangman.go:177-186 | appends the word-record key of the guess |
| HangMan.HangManData.UsedVerif | hangman.go:189-214 | returns exactly whether the key of the guess (word key for several runes, letter key for one) is recorded |
| HangMan.HangManData.MainMecanics | hangman.go:897-932 | the new state and outcome are Engine.MainMecanics of the old: win check, then STOP, then QUIT, then a wrong word; one rune is a letter guess then recorded |
| HangMan.HangManData.Submit | hangman.go:387-399 | an empty or already recorded guess is refused with no change; any other goes through MainMecanics |
| HangMan.HangManData.EndGame | hangman.go:935-945 | returns exactly whether no attempt is left or no placeholder is left |
| Properties.RevealAtStep | hangman.go:113-119 | a pre-revealed position is a hit (no charge), shows the target's rune, writes no wrong rune, and records the letter at most once |
| Properties.PreRevealShows | hangman.go:113-119 | over all picked positions: counters and word list unchanged, every picked position shows the target's rune, no wrong rune written, nothing past the word touched |
| Properties.PreRevealLetters | hangman.go:113-119 | over all picked positions: the letter list only grows, every picked ASCII letter ends up in it, it stays upper case and free of repeats |
| Properties.PreRevealFacts | hangman.go:113-119 | over all picked positions: counters and word list unchanged, every picked position shown, no wrong rune written, letter list grows without repeats and stays upper case |
| Properties.PreRevealRecordsOnly | hangman.go:113-119 | the pre-reveal adds to the letter list nothing but the letter keys of the picked positions |
| Properties.SetWordReveals | hangman.go:88-119 | SetWord picks exactly max(0, len/2 - 1) distinct in-range positions and each shows the target's rune |
| Properties.SetWordIsFree | hangman.go:83-119 | pre-reveals are free: attempts, gallows stage and word list unchanged; the masked word grows by the chosen word's length |
| Properties.SetWordRecordsOnce | hangman.go:116-118 | a pre-revealed letter is recorded only if absent: no repeats, upper case only, earlier records kept, nothing recorded but the picked positions' letter keys, every pre-revealed ASCII letter recorded |
| Properties.LastEntryNeverChosen | hangman.go:85-86 | the last dictionary entry is never the word to find unless it also occurs earlier |
| Properties.NewGameIsValid | hangman.go:73-120 | setData then SetWord gives a valid state with 10 attempts, stage -1, equal lengths, no repeats, no recorded words |
| Properties.MainMecanicsKeepsValid | hangman.go:897-932 | any guess while attempts remain keeps attempts + stage == 9 within [0,10] and [-1,9], equal lengths, no wrong rune shown, upper-case letter list (the wrong-word clamp included); the word to find never changes |
| Properties.LetterGuess | hangman.go:926-929 | in ASCII-case terms: a hit shows the lowered guess at every same-letter position and charges nothing; a miss changes no rune and costs one attempt and one stage; the upper case is appended even if present |
| Properties.LetterGuessIgnoresCase | hangman.go:125-131 | guessing a letter in lower or upper case has the identical effect |
| Properties.NonLetterChargedEveryTime | hangman.go:168-175 | a non-letter rune is never recorded, so it is accepted again and, when absent from the word, charged every time |
| Properties.IsThisTheWordFacts | hangman.go:146-164 | false for another length, true for the word itself, and equality ignoring case on all-letter words |
| Properties.WordGuessWins | hangman.go:898-915 | Won iff the guess is the word; a win shows the whole word and changes no counter or list; STOP/QUIT only when not the word, leaving the state as it was |
| Properties.WrongWordCostsTwo | hangman.go:916-925 | a wrong word is recorded by its key and costs two attempts and two stages, clamped to 0 attempts and stage 9; the masked word, the letter list and the word to find are unchanged |
| Properties.RecordThenReject | hangman.go:917-929 | after a wrong word or a letter guess, UsedVerif knows that guess (a letter in either case) |
| Properties.RepeatIsRejected | hangman.go:604-606 | submitting the same word or letter again is refused and changes nothing |
| Properties.SubmitKeepsValid | hangman.go:445-446 | while an attempt is left, the game loops' guarded step keeps a valid state valid and its recorded guesses free of repeats, including the first guess after a pre-reveal that already shows the whole word |
| Properties.WinEndsGame | hangman.go:935-945 | a win from a live state leaves attempts, and ends the game when the word has no placeholder glyph |
| Properties.LastMissLoses | hangman.go:936-938 | a miss with one attempt left reaches 0 attempts, stage 9 and the end of the game |

## Left out

- Rendering is not modelled (`drawBox`, `display`, `drawText`, `DisplayHangman`, the ASCII-art and classic displays, `printRune`). It is terminal and stdout drawing.
- The interactive loops are not modelled (`TermBoxGame`, `AsciiGame`, `ClassicGame`, `input`). They are I/O. Their guard is `Submit`. `Submit` leaves out the third conjunct of `TermBoxGame`'s guard, `userInput != empty` (hangman.go:388). That conjunct refuses the on-screen message "Empty or already proposed!" as a guess, and a player cannot type that message, because Space and Enter submit. The `Word = ToFind` that `TermBoxGame` does on a loss (hangman.go:423) is display only.
- `Save` and `Load` are not modelled. They are file and JSON I/O. After `STOP` and `QUIT` the model returns the tags `SaveAndExit` and `Exit`. It does not model the save, its failure exit code, closing the terminal or `os.Exit`.
- Command-line handling (`Help`, `Rules`, `SortArguments`, `ExploitingArgument`) and file loading (`readAscii`, `readHang`, `readFile`, `listDictio`, `readAllDico`, `ReadTheDico`) are not modelled. They are process and file I/O. The dictionary is a parameter.
- Randomness is replaced by parameters. `rand.Intn(len(dico) - 1)` becomes the `choice` parameter, whose requirement `choice < len(dico) - 1` carries the panic on a one-word dictionary. The position draws become the `draws` sequence.
- HangMan.HangManData.SetWord: requires the draws to hold enough distinct positions (`GoodDraws`). The source's rejection loop has no termination guarantee of its own, and the model covers only the runs that stop.
- HangMan.HangManData.MainMecanics: requires the masked word to be at least as long as the word to find. On a shorter one the source panics only when a letter hit falls at an index at or past the end of the masked word (hangman.go:135-136); a word guess, `STOP`, `QUIT` and a letter miss go through. Every state the game reaches has equal lengths, so the case never arises.
- HangMan.HangManData.LetterInWord, HangMan.HangManData.Submit, Engine.LetterInWord, Engine.MainMecanics, Engine.Submit: carry the same requirement that the masked word is at least as long as the word to find, for the same reason.
- Engine.UsedVerif, Engine.MainMecanics, HangMan.HangManData.UsedVerif, HangMan.HangManData.MainMecanics: require a non-empty guess. The source panics on an empty string there (hangman.go:191, 927-928). Every game loop checks for an empty input before calling them (hangman.go:388, 445, 604), and `Submit` refuses an empty guess itself.
- Multi-byte UTF-8 is not modelled. The source mixes byte lengths and indices (`len`, ranging over a string) with rune indices. The model gives each rune one position, which matches the source on ASCII words and guesses. It also leaves out Go's replacement of an invalid code point by U+FFFD when a shifted rune slice becomes a string.
- The 32-bit width of a rune is not modelled. No shift by 32 of a valid code point comes near it.
