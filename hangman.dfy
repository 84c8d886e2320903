/** The `HangManData` record and its methods, run step by step as the source
    runs them: slices become `seq` fields that the methods reassign, the
    loops stay loops.  Each method is proved to leave exactly the state the
    function of the same name in module Engine describes. */
module HangMan {
  import opened Runes
  import opened Picking
  import opened Engine

  /** The case fold UsedWord and UsedVerif apply to a word, rune by rune. */
  method FoldWord(word: seq<Rune>) returns (runeWord: seq<Rune>)
    ensures runeWord == WordKey(word)
  {
    runeWord := word;
    var index := 0;
    while index < |runeWord|
      invariant 0 <= index <= |runeWord| == |word|
      invariant forall k :: 0 <= k < index ==> runeWord[k] == WordKeyRune(word[k])
      invariant forall k :: index <= k < |word| ==> runeWord[k] == word[k]
    {
      var r := runeWord[index];
      if r < 'a' as int || r > 'z' as int {
        runeWord := runeWord[index := r + 32];
      }
      index := index + 1;
    }
  }

  /** The rejection loop of `SetWord`: draws are consumed until
      `nbVisibleLetter` distinct positions are kept; a draw already kept is
      drawn again.  Given enough distinct draws it stops, keeping exactly the
      positions Pick describes. */
  method PickPositions(draws: seq<nat>, nbVisibleLetter: int) returns (place: seq<nat>)
    requires nbVisibleLetter <= |Elems(draws)|
    ensures place == Pick(draws, nbVisibleLetter, [])
  {
    place := [];
    var need := nbVisibleLetter;
    var d := 0;
    PickLength(draws, nbVisibleLetter, []);
    assert Elems([]) == {};
    while need > 0
      invariant 0 <= d <= |draws|
      invariant Pick(draws, nbVisibleLetter, []) == Pick(draws[d..], need, place)
      invariant |place| + need == nbVisibleLetter
      decreases |draws| - d
    {
      var randomIndex := draws[d];
      assert draws[d..][1..] == draws[d + 1..];
      if randomIndex !in place {
        place := place + [randomIndex];
        need := need - 1;
      }
      d := d + 1;
    }
  }

  class HangManData {
    var Word: seq<Rune>
    var ToFind: seq<Rune>
    var Attempts: int
    var HangmanPositions: int
    var ListWord: seq<seq<Rune>>
    var ListLetter: seq<Rune>
    var LastFail: bool

    /** The current fields as an Engine.State value. */
    function Snapshot(): State
      reads this
    {
      State(Word, ToFind, Attempts, HangmanPositions, ListWord, ListLetter, LastFail)
    }

    /** A record with Go's zero values, as `var data HangManData` declares it. */
    constructor ()
      ensures Snapshot() == State([], [], 0, 0, [], [], false)
    {
      Word, ToFind, Attempts, HangmanPositions := [], [], 0, 0;
      ListWord, ListLetter, LastFail := [], [], false;
    }

    /** `setData`. */
    method SetData()
      modifies this
      ensures Snapshot() == Engine.SetData(old(Snapshot()))
    {
      Word := [];
      ToFind := [];
      Attempts := StartAttempts;
      HangmanPositions := StartPosition;
      ListLetter := [];
      ListWord := [];
    }

    /** `SetWord`.  `choice` stands for the result of `rand.Intn(len(dico) - 1)`
        and `draws` for the successive results of `rand.Intn(len(ToFind))`. */
    method SetWord(dico: seq<seq<Rune>>, choice: nat, draws: seq<nat>)
      requires choice < |dico| - 1
      requires GoodDraws(dico[choice], draws)
      modifies this
      ensures Snapshot() == Engine.SetWord(old(Snapshot()), dico, choice, draws)
    {
      ToFind := dico[choice];
      var nbVisibleLetter := |ToFind| / 2 - 1;

      var i := 0;
      while i < |ToFind|
        invariant 0 <= i <= |ToFind|
        invariant Word == old(Word) + Blanks(i)
        modifies this`Word
      {
        Word := Word + [Placeholder];
        i := i + 1;
      }

      var place := PickPositions(draws, nbVisibleLetter);
      PickBounded(draws, nbVisibleLetter, |ToFind|);

      assert Snapshot() == old(Snapshot()).(toFind := dico[choice], word := old(Word) + Blanks(|ToFind|));
      RevealAll(place);
    }

    /** The last loop of `SetWord`: every picked position, in order, is
        pre-revealed. */
    method RevealAll(place: seq<nat>)
      requires |ToFind| <= |Word|
      requires forall i :: 0 <= i < |place| ==> place[i] < |ToFind|
      modifies this
      ensures Snapshot() == PreReveal(old(Snapshot()), place)
    {
      ghost var start := Snapshot();
      var j := 0;
      while j < |place|
        invariant 0 <= j <= |place|
        invariant ToFind == start.toFind && |Word| == |start.word|
        invariant Snapshot() == PreReveal(start, place[..j])
      {
        RevealAt(place[j]);
        assert place[..j + 1][..j] == place[..j];
        j := j + 1;
      }
      assert place[..j] == place;
    }

    /** One turn of `SetWord`'s last loop: the target's rune at `index` is
        copied into the masked word, guessed as a letter, and recorded unless
        already recorded. */
    method RevealAt(index: nat)
      requires index < |ToFind| <= |Word|
      modifies this
      ensures Snapshot() == Engine.RevealAt(old(Snapshot()), index)
    {
      Word := Word[index := ToFind[index]];
      LetterInWord(ToFind[index]);
      var used := UsedVerif([ToFind[index]]);
      if !used {
        UsedLetter(ToFind[index]);
      }
    }

    /** `LetterInWord`. */
    method LetterInWord(oneRune: Rune)
      requires |ToFind| <= |Word|
      modifies this
      ensures Snapshot() == Engine.LetterInWord(old(Snapshot()), oneRune)
    {
      var r := oneRune;
      var place: seq<nat> := [];
      var index := 0;
      while index < |ToFind|
        invariant 0 <= index <= |ToFind|
        invariant r == if index == 0 then oneRune else ToLower(oneRune)
        invariant forall k :: k in place ==> k < index && SameLetter(ToFind[k], oneRune)
        invariant forall k :: 0 <= k < index && SameLetter(ToFind[k], oneRune) ==> k in place
        modifies {}
      {
        if IsUpper(r) {
          r := r + 32;
        }
        if ToFind[index] == r || ToFind[index] == r - 32 {
          place := place + [index];
        }
        index := index + 1;
      }
      if |place| != 0 {
        assert place[0] in place;
        LastFail := false;
        var j := 0;
        while j < |place|
          invariant 0 <= j <= |place|
          invariant |Word| == |old(Word)|
          invariant forall k :: 0 <= k < |Word| ==>
                      Word[k] == if k in place[..j] then r else old(Word)[k]
          modifies this`Word
        {
          assert place[j] in place;
          Word := Word[place[j] := r];
          assert place[..j + 1] == place[..j] + [place[j]];
          j := j + 1;
        }
        assert place[..j] == place;
        assert Word == Reveal(old(Word), ToFind, oneRune);
      } else {
        LastFail := true;
        Attempts := Attempts - 1;
        HangmanPositions := HangmanPositions + 1;
      }
    }

    /** `IsThisTheWord`. */
    method IsThisTheWord(word: seq<Rune>) returns (same: bool)
      ensures same == Engine.IsThisTheWord(Snapshot(), word)
    {
      if |word| != |ToFind| {
        return false;
      }
      var index := 0;
      while index < |word|
        invariant 0 <= index <= |word|
        invariant forall k :: 0 <= k < index ==> SameLetter(ToFind[k], word[k])
      {
        var oneRune := word[index];
        if IsUpper(oneRune) {
          oneRune := oneRune + 32;
        }
        if oneRune != ToFind[index] && oneRune != ToFind[index] + 32 {
          return false;
        }
        index := index + 1;
      }
      return true;
    }

    /** `UsedLetter`. */
    method UsedLetter(oneRune: Rune)
      modifies this
      ensures Snapshot() == Engine.UsedLetter(old(Snapshot()), oneRune)
    {
      var r := oneRune;
      if r < 'A' as int || r > 'Z' as int {
        r := r - 32;
      }
      if 'A' as int <= r <= 'Z' as int {
        ListLetter := ListLetter + [r];
      }
    }

    /** `UsedWord`. */
    method UsedWord(word: seq<Rune>)
      modifies this
      ensures Snapshot() == Engine.UsedWord(old(Snapshot()), word)
    {
      var runeWord := FoldWord(word);
      ListWord := ListWord + [runeWord];
    }

    /** `UsedVerif`. */
    method UsedVerif(input: seq<Rune>) returns (used: bool)
      requires |input| > 0
      ensures used == Engine.UsedVerif(Snapshot(), input)
    {
      var oneRune := input[0];
      if |input| > 1 {
        var runeWord := FoldWord(input);
        var i := 0;
        while i < |ListWord|
          invariant 0 <= i <= |ListWord|
          invariant forall k :: 0 <= k < i ==> ListWord[k] != runeWord
        {
          if runeWord == ListWord[i] {
            return true;
          }
          i := i + 1;
        }
      } else {
        if oneRune < 'A' as int || oneRune > 'Z' as int {
          oneRune := oneRune - 32;
        }
        var i := 0;
        while i < |ListLetter|
          invariant 0 <= i <= |ListLetter|
          invariant forall k :: 0 <= k < i ==> ListLetter[k] != oneRune
        {
          if ListLetter[i] == oneRune {
            return true;
          }
          i := i + 1;
        }
      }
      return false;
    }

    /** `mainMecanics`, with the session ending of STOP and QUIT returned as
        an outcome instead of performed. */
    method MainMecanics(input: seq<Rune>) returns (outcome: Outcome)
      requires |input| > 0
      requires |ToFind| <= |Word|
      modifies this
      ensures (Snapshot(), outcome) == Engine.MainMecanics(old(Snapshot()), input)
    {
      if |input| > 1 {
        var found := IsThisTheWord(input);
        if found {
          Word := ToFind;
          LastFail := false;
          return Won;
        } else if input == StopToken {
          return SaveAndExit;
        } else if input == QuitToken {
          return Exit;
        } else {
          UsedWord(input);
          Attempts := Attempts - 2;
          HangmanPositions := HangmanPositions + 2;
          LastFail := true;
          if HangmanPositions > LastPosition {
            HangmanPositions := LastPosition;
            Attempts := 0;
          }
        }
      } else {
        LetterInWord(input[0]);
        UsedLetter(input[0]);
      }
      return Continue;
    }

    /** The guard every game loop puts before `mainMecanics`: only a
        non-empty guess not yet recorded is evaluated. */
    method Submit(input: seq<Rune>) returns (outcome: Outcome)
      requires |ToFind| <= |Word|
      modifies this
      ensures (Snapshot(), outcome) == Engine.Submit(old(Snapshot()), input)
    {
      if |input| == 0 {
        return Rejected;
      }
      var used := UsedVerif(input);
      if used {
        return Rejected;
      }
      outcome := MainMecanics(input);
    }

    /** `endGame`. */
    method EndGame() returns (over: bool)
      ensures over == Engine.EndGame(Snapshot())
    {
      if Attempts <= 0 {
        return true;
      }
      var i := 0;
      while i < |Word|
        invariant 0 <= i <= |Word|
        invariant forall k :: 0 <= k < i ==> Word[k] != Placeholder
      {
        if Word[i] == Placeholder {
          return false;
        }
        i := i + 1;
      }
      return true;
    }
  }
}
