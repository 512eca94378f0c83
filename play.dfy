/**
  The play page (pages/play/script.js): a `Game` that holds the game state, a
  two-minute countdown and the secret word, builds the on-screen keyboard and the
  hidden word display once the word has arrived, and ticks the countdown down once
  per second without going below zero.
 */
module Play {
  import opened JsValues
  import DisplayCharacter

  /** The on-screen keyboard, row by row, as the page lays it out. */
  const KEYS: seq<string> := ["qwertyuiop", "asdfghjkl", "zxcvbnm"]

  datatype GameState = Playing | Paused

  /** Seconds on the clock when a game starts. */
  const MAX_COUNTDOWN: nat := 120

  /** A key of the on-screen keyboard: its `data-key` and its text. */
  datatype KeyButton = KeyButton(dataKey: string, textContent: string)

  /** A `display-character` cell of the word display, by its two attributes. */
  datatype HintCell = HintCell(character: string, show: string)

  // ---------------------------------------------------------------------------
  // Keyboard layout

  /** The keyboard's letters, row after row. */
  function Letters(rows: seq<string>): (s: string)
    ensures |s| == if rows == [] then 0 else |rows[0]| + |Letters(rows[1..])|
  {
    if rows == [] then [] else rows[0] + Letters(rows[1..])
  }

  function Occurrences(s: string, c: char): nat {
    if s == [] then 0 else (if s[0] == c then 1 else 0) + Occurrences(s[1..], c)
  }

  predicate Distinct(s: string) {
    forall i, j :: 0 <= i < j < |s| ==> s[i] != s[j]
  }

  /** A letter occurs once in a string without repetitions if it occurs at all. */
  lemma {:induction false} DistinctOccursOnce(s: string, c: char)
    requires Distinct(s)
    ensures Occurrences(s, c) == if c in s then 1 else 0
  {
    if s != [] {
      assert Distinct(s[1..]) by {
        forall i, j | 0 <= i < j < |s| - 1 ensures s[1..][i] != s[1..][j] {
          assert s[1..][i] == s[i + 1] && s[1..][j] == s[j + 1];
        }
      }
      DistinctOccursOnce(s[1..], c);
      if s[0] == c {
        assert c !in s[1..] by {
          forall k | 0 <= k < |s| - 1 ensures s[1..][k] != c {
            assert s[1..][k] == s[k + 1];
          }
        }
      } else {
        assert c in s <==> c in s[1..] by {
          assert s == [s[0]] + s[1..];
        }
      }
    }
  }

  /** The layout's letters in reading order. */
  lemma LayoutLetters()
    ensures |KEYS| == 3 && |KEYS[0]| == 10 && |KEYS[1]| == 9 && |KEYS[2]| == 7
    ensures Letters(KEYS) == "qwertyuiopasdfghjklzxcvbnm"
  {
    assert Letters(KEYS[3..]) == [];
    assert Letters(KEYS[2..]) == KEYS[2];
    assert Letters(KEYS[1..]) == KEYS[1] + KEYS[2];
  }

  /** No letter repeats in the layout, and exactly the letters a-z appear in it. */
  lemma LayoutDistinctAlphabet(c: char)
    ensures Distinct("qwertyuiopasdfghjklzxcvbnm")
    ensures c in "qwertyuiopasdfghjklzxcvbnm" <==> 'a' <= c <= 'z'
  {
  }

  /** The layout has rows of 10, 9 and 7 keys and holds every lower-case letter a-z
      exactly once, and nothing else. */
  lemma KeyboardHasEachLetterOnce(c: char)
    ensures |KEYS| == 3 && |KEYS[0]| == 10 && |KEYS[1]| == 9 && |KEYS[2]| == 7
    ensures Occurrences(Letters(KEYS), c) == if 'a' <= c <= 'z' then 1 else 0
  {
    LayoutLetters();
    LayoutDistinctAlphabet(c);
    DistinctOccursOnce(Letters(KEYS), c);
  }

  /** The buttons `displayKeyboard` appends: one row per layout row, and in each row one
      button per letter whose `data-key` and text are that letter. */
  function KeyboardButtons(): (rows: seq<seq<KeyButton>>)
    ensures |rows| == |KEYS|
    ensures forall r :: 0 <= r < |rows| ==> |rows[r]| == |KEYS[r]|
    ensures forall r, k :: 0 <= r < |rows| && 0 <= k < |rows[r]| ==>
              rows[r][k].dataKey == [KEYS[r][k]] && rows[r][k].textContent == [KEYS[r][k]]
  {
    seq(|KEYS|, r requires 0 <= r < |KEYS| => RowButtons(KEYS[r]))
  }

  function RowButtons(row: string): (buttons: seq<KeyButton>)
    ensures |buttons| == |row|
    ensures forall k :: 0 <= k < |row| ==> buttons[k] == KeyButton([row[k]], [row[k]])
  {
    seq(|row|, k requires 0 <= k < |row| => KeyButton([row[k]], [row[k]]))
  }

  // ---------------------------------------------------------------------------
  // Word display

  /** The cells `displayWordHint` appends: one per character of the word, in order,
      each carrying that character and `show` = "false". */
  function HintCells(word: string): (cells: seq<HintCell>)
    ensures |cells| == |word|
    ensures forall i :: 0 <= i < |word| ==> cells[i] == HintCell([word[i]], "false")
  {
    seq(|word|, i requires 0 <= i < |word| => HintCell([word[i]], "false"))
  }

  /** What a cell shows, by the display-character rule. */
  function CellText(cell: HintCell): string {
    DisplayCharacter.RenderedText(Str(cell.character), Str(cell.show))
  }

  /** The text of the whole word display, cell after cell. */
  function DisplayedWord(cells: seq<HintCell>): string {
    if cells == [] then "" else CellText(cells[0]) + DisplayedWord(cells[1..])
  }

  /** Every cell with its `show` attribute set to "true". */
  function RevealAll(cells: seq<HintCell>): (revealed: seq<HintCell>)
    ensures |revealed| == |cells|
    ensures forall i :: 0 <= i < |cells| ==>
              revealed[i].character == cells[i].character && revealed[i].show == "true"
  {
    seq(|cells|, i requires 0 <= i < |cells| => cells[i].(show := "true"))
  }

  /** The freshly built word display hides every letter. */
  lemma {:induction false} HintHidesWord(word: string)
    ensures DisplayedWord(HintCells(word)) == ""
  {
    if word != [] {
      assert HintCells(word)[1..] == HintCells(word[1..]);
      HintHidesWord(word[1..]);
    }
  }

  /** Setting `show` to "true" on every cell spells the word out again. */
  lemma {:induction false} RevealedHintSpellsWord(word: string)
    ensures DisplayedWord(RevealAll(HintCells(word))) == word
  {
    if word != [] {
      assert RevealAll(HintCells(word))[1..] == RevealAll(HintCells(word[1..]));
      RevealedHintSpellsWord(word[1..]);
      assert word == [word[0]] + word[1..];
    }
  }

  // ---------------------------------------------------------------------------
  // Countdown

  /** The countdown after one firing of the once-per-second interval. */
  function TickedCountdown(countdown: nat): (ticked: nat)
    ensures ticked <= countdown
    ensures countdown > 0 ==> ticked + 1 == countdown
    ensures countdown == 0 ==> ticked == 0
  {
    if countdown > 0 then countdown - 1 else countdown
  }

  /** The countdown after `n` firings. */
  function CountdownAfter(countdown: nat, n: nat): nat {
    if n == 0 then countdown else CountdownAfter(TickedCountdown(countdown), n - 1)
  }

  /** Each firing takes exactly one second off until the clock reads 0, where it stays. */
  lemma {:induction false} CountdownAfterTicks(countdown: nat, n: nat)
    ensures CountdownAfter(countdown, n) == if n >= countdown then 0 else countdown - n
  {
    if n > 0 {
      CountdownAfterTicks(TickedCountdown(countdown), n - 1);
    }
  }

  /** The countdown never increases, and from a full clock 120 firings reach 0 for good. */
  lemma CountdownRunsOut(n: nat)
    ensures CountdownAfter(MAX_COUNTDOWN, n + 1) <= CountdownAfter(MAX_COUNTDOWN, n)
    ensures CountdownAfter(MAX_COUNTDOWN, n) <= MAX_COUNTDOWN
    ensures n >= MAX_COUNTDOWN ==> CountdownAfter(MAX_COUNTDOWN, n) == 0
  {
    CountdownAfterTicks(MAX_COUNTDOWN, n);
    CountdownAfterTicks(MAX_COUNTDOWN, n + 1);
  }

  // ---------------------------------------------------------------------------
  // The game

  class Game {
    var gameState: GameState
    var countdown: nat
    var word: string
    /** What the game has put on the page: the rows appended to #keyboard, the cells
        appended to #word-display, and what it has written into #countdown ("" until it
        writes there; before that #countdown shows the page's own markup). */
    var keyboard: seq<seq<KeyButton>>
    var wordDisplay: seq<HintCell>
    var countdownText: string
    /** How many once-per-second intervals `displayCountdown` has started. */
    var intervals: nat

    ghost predicate Valid()
      reads this
    {
      countdown <= MAX_COUNTDOWN
    }

    constructor ()
      ensures Valid()
      ensures gameState == Playing && countdown == MAX_COUNTDOWN && word == ""
      ensures keyboard == [] && wordDisplay == [] && countdownText == "" && intervals == 0
    {
      gameState := Playing;
      countdown := MAX_COUNTDOWN;
      word := "";
      keyboard, wordDisplay, countdownText, intervals := [], [], "", 0;
    }

    /** `displayKeyboard`: one row of buttons per layout row. */
    method DisplayKeyboard()
      requires Valid()
      modifies this
      ensures Valid()
      ensures keyboard == old(keyboard) + KeyboardButtons()
      ensures gameState == old(gameState) && countdown == old(countdown) && word == old(word)
      ensures wordDisplay == old(wordDisplay) && countdownText == old(countdownText)
      ensures intervals == old(intervals)
    {
      var buttons := KeyboardButtons();
      for r := 0 to |KEYS|
        invariant keyboard == old(keyboard) + buttons[..r]
        invariant gameState == old(gameState) && countdown == old(countdown) && word == old(word)
        invariant wordDisplay == old(wordDisplay) && countdownText == old(countdownText)
        invariant intervals == old(intervals)
      {
        var row: seq<KeyButton> := [];
        for k := 0 to |KEYS[r]|
          invariant row == RowButtons(KEYS[r])[..k]
        {
          var key := [KEYS[r][k]];
          row := row + [KeyButton(key, key)];
        }
        assert row == buttons[r] by {
          assert RowButtons(KEYS[r])[..|KEYS[r]|] == RowButtons(KEYS[r]);
        }
        keyboard := keyboard + [row];
        assert buttons[..r + 1] == buttons[..r] + [row];
      }
      assert buttons[..|KEYS|] == buttons;
    }

    /** `displayWordHint`: one hidden cell per character of the word. */
    method DisplayWordHint()
      requires Valid()
      modifies this
      ensures Valid()
      ensures wordDisplay == old(wordDisplay) + HintCells(word)
      ensures gameState == old(gameState) && countdown == old(countdown) && word == old(word)
      ensures keyboard == old(keyboard) && countdownText == old(countdownText)
      ensures intervals == old(intervals)
    {
      for i := 0 to |word|
        invariant word == old(word)
        invariant wordDisplay == old(wordDisplay) + HintCells(word)[..i]
        invariant gameState == old(gameState) && countdown == old(countdown)
        invariant keyboard == old(keyboard) && countdownText == old(countdownText)
        invariant intervals == old(intervals)
      {
        wordDisplay := wordDisplay + [HintCell([word[i]], "false")];
        assert HintCells(word)[..i + 1] == HintCells(word)[..i] + [HintCell([word[i]], "false")];
      }
      assert HintCells(word)[..|word|] == HintCells(word);
    }

    /** `displayCountdown`: out of play it writes "Paused"; in play it starts an interval
        whose every firing is one call of `Tick`. */
    method DisplayCountdown()
      requires Valid()
      modifies this
      ensures Valid()
      ensures gameState != Playing ==> countdownText == "Paused" && intervals == old(intervals)
      ensures gameState == Playing ==>
                countdownText == old(countdownText) && intervals == old(intervals) + 1
      ensures gameState == old(gameState) && countdown == old(countdown) && word == old(word)
      ensures keyboard == old(keyboard) && wordDisplay == old(wordDisplay)
    {
      if gameState != Playing {
        countdownText := "Paused";
      } else {
        intervals := intervals + 1;
      }
    }

    /** One firing of the interval: take a second off while time is left and show the
        new value; at 0 nothing changes. */
    method Tick()
      requires Valid()
      modifies this
      ensures Valid()
      ensures countdown == TickedCountdown(old(countdown))
      ensures old(countdown) > 0 ==> countdown == old(countdown) - 1 &&
                                     countdownText == NumberToString(countdown)
      ensures old(countdown) == 0 ==> countdown == 0 && countdownText == old(countdownText)
      ensures gameState == old(gameState) && word == old(word) && intervals == old(intervals)
      ensures keyboard == old(keyboard) && wordDisplay == old(wordDisplay)
    {
      if countdown > 0 {
        countdown := countdown - 1;
        countdownText := NumberToString(countdown);
      }
    }

    /** `setup`: keyboard, then word display, then countdown. */
    method Setup()
      requires Valid()
      modifies this
      ensures Valid()
      ensures keyboard == old(keyboard) + KeyboardButtons()
      ensures wordDisplay == old(wordDisplay) + HintCells(word)
      ensures gameState != Playing ==> countdownText == "Paused" && intervals == old(intervals)
      ensures gameState == Playing ==>
                countdownText == old(countdownText) && intervals == old(intervals) + 1
      ensures gameState == old(gameState) && countdown == old(countdown) && word == old(word)
    {
      DisplayKeyboard();
      DisplayWordHint();
      DisplayCountdown();
    }

    /** `init`: wait for the word, then set the page up. `fetched` is what the word
        request settled with; when it failed, the rejection propagates and nothing is
        set up. */
    method Init(fetched: Result<string>) returns (r: Result<()>)
      requires Valid()
      modifies this
      ensures Valid()
      ensures r.Ok? <==> fetched.Ok?
      ensures fetched.Throw? ==>
                word == old(word) && keyboard == old(keyboard) &&
                wordDisplay == old(wordDisplay) && countdownText == old(countdownText) &&
                intervals == old(intervals)
      ensures fetched.Ok? ==>
                word == fetched.value &&
                keyboard == old(keyboard) + KeyboardButtons() &&
                wordDisplay == old(wordDisplay) + HintCells(fetched.value) &&
                (gameState == Playing ==>
                   countdownText == old(countdownText) && intervals == old(intervals) + 1) &&
                (gameState != Playing ==>
                   countdownText == "Paused" && intervals == old(intervals))
      ensures fetched.Throw? ==> r == Throw(fetched.error)
      ensures gameState == old(gameState) && countdown == old(countdown)
    {
      if fetched.Throw? {
        return Throw(fetched.error);
      }
      word := fetched.value;
      Setup();
      r := Ok(());
    }
  }

  /** Loading the page: a new game, then `init` with the word request's outcome. */
  method LoadPage(fetched: Result<string>) returns (game: Game)
    ensures game.Valid() && game.gameState == Playing && game.countdown == MAX_COUNTDOWN
    ensures fetched.Ok? ==> game.word == fetched.value &&
                            game.keyboard == KeyboardButtons() &&
                            game.wordDisplay == HintCells(fetched.value) &&
                            game.countdownText == "" && game.intervals == 1
    ensures fetched.Throw? ==> game.word == "" && game.keyboard == [] &&
                               game.wordDisplay == [] && game.countdownText == "" &&
                               game.intervals == 0
  {
    game := new Game();
    var _ := game.Init(fetched);
  }
}
