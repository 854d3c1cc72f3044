/**
 * The two-player session (TwoPlayerGame): the two keymaps, the 60-second countdown, ending,
 * starting and restarting a game, routing each key to the player whose keymap has it, and the
 * winner. The session's four state cells are specified by pure transitions over a Session
 * value; the class TwoPlayerGame holds them in fields, owns the two per-player decoders, and
 * its methods are proved to follow those transitions.
 */
module TwoPlayerGame {
  import opened Wrappers
  import opened TypingGame
  import Scoring

  /** Player 1 types on the numeric keypad; Backspace erases and '+' switches case. */
  const Player1Keys := KeyboardConfig(
    map[
      "7" := [".", ",", "?", "!", "'", "\"", "-", "(", ")", "@", "/", ":", "1"],
      "8" := ["a", "b", "c"],
      "9" := ["d", "e", "f"],
      "4" := ["g", "h", "i"],
      "5" := ["j", "k", "l"],
      "6" := ["m", "n", "o"],
      "1" := ["p", "q", "r", "s"],
      "2" := ["t", "u", "v"],
      "3" := ["w", "x", "y", "z"],
      "0" := [" "],
      "Backspace" := [""]
    ],
    "+")

  /** Player 2 types on the letter block u-i-o / j-k-l / m-,-.; Delete erases and '/' switches case. */
  const Player2Keys := KeyboardConfig(
    map[
      "u" := [".", ",", "?", "!", "'", "\"", "-", "(", ")", "@", "/", ":", "1"],
      "i" := ["a", "b", "c"],
      "o" := ["d", "e", "f"],
      "j" := ["g", "h", "i"],
      "k" := ["j", "k", "l"],
      "l" := ["m", "n", "o"],
      "m" := ["p", "q", "r", "s"],
      "," := ["t", "u", "v"],
      "." := ["w", "x", "y", "z"],
      "space" := [" "],
      "Delete" := [""]
    ],
    "/")

  /** Player 1's keymap meets what the decoder needs; its `""` entry sits under Backspace only. */
  lemma Player1KeysWellFormed()
    ensures ConfigOk(Player1Keys)
  {
    var m := Player1Keys.phoneMap;
    forall k | k in m
      ensures |m[k]| > 0
      ensures !IsDeleteKey(k) && k != "+" ==> forall j :: 0 <= j < |m[k]| ==> |m[k][j]| == 1
    {
      assert k in {"7", "8", "9", "4", "5", "6", "1", "2", "3", "0", "Backspace"};
    }
  }

  /** Player 2's keymap meets what the decoder needs; its `""` entry sits under Delete only. */
  lemma Player2KeysWellFormed()
    ensures ConfigOk(Player2Keys)
  {
    var m := Player2Keys.phoneMap;
    forall k | k in m
      ensures |m[k]| > 0
      ensures !IsDeleteKey(k) && k != "/" ==> forall j :: 0 <= j < |m[k]| ==> |m[k][j]| == 1
    {
      assert k in {"u", "i", "o", "j", "k", "l", "m", ",", ".", "space", "Delete"};
    }
  }

  /** The routing handler hands a key to player 1 iff player 1's keymap has it or it is player 1's mode key. */
  predicate RoutesToPlayer1(key: string)
  {
    key in Player1Keys.phoneMap || key == Player1Keys.modeSwitchKey
  }

  /** The routing handler hands a key to player 2 iff player 2's keymap has it or it is player 2's mode key. */
  predicate RoutesToPlayer2(key: string)
  {
    key in Player2Keys.phoneMap || key == Player2Keys.modeSwitchKey
  }

  /** Player 1's routed keys are single digits or '+', and Backspace. */
  lemma Player1RoutedShape(key: string)
    ensures RoutesToPlayer1(key) ==> (|key| == 1 && ('0' <= key[0] <= '9' || key[0] == '+')) || key == "Backspace"
  {
    assert RoutesToPlayer1(key) ==> key in {"7", "8", "9", "4", "5", "6", "1", "2", "3", "0", "Backspace", "+"};
  }

  /** Player 2's routed keys are single lower-case letters, ',' '.' or '/', and "space" and Delete. */
  lemma Player2RoutedShape(key: string)
    ensures RoutesToPlayer2(key) ==> (|key| == 1 && ('a' <= key[0] <= 'z' || key[0] in {',', '.', '/'})) || key == "space" || key == "Delete"
  {
    assert RoutesToPlayer2(key) ==> key in {"u", "i", "o", "j", "k", "l", "m", ",", ".", "space", "Delete", "/"};
  }

  /** The two players' keys are disjoint: no key is ever handed to both. */
  lemma RoutingDisjoint(key: string)
    ensures !(RoutesToPlayer1(key) && RoutesToPlayer2(key))
  {
    Player1RoutedShape(key);
    Player2RoutedShape(key);
  }

  /** Backspace reaches only player 1, Delete only player 2, and each mode key only its own player. */
  lemma EraseAndModeKeysArePrivate()
    ensures RoutesToPlayer1("Backspace") && !RoutesToPlayer2("Backspace")
    ensures RoutesToPlayer2("Delete") && !RoutesToPlayer1("Delete")
    ensures RoutesToPlayer1("+") && !RoutesToPlayer2("+")
    ensures RoutesToPlayer2("/") && !RoutesToPlayer1("/")
  {
    RoutingDisjoint("Backspace");
    RoutingDisjoint("Delete");
    RoutingDisjoint("+");
    RoutingDisjoint("/");
  }

  /** A key starts a game when either keymap has it (every candidate list is truthy, even `[""]`). */
  predicate StartKey(key: string)
  {
    key in Player1Keys.phoneMap || key in Player2Keys.phoneMap
  }

  /** The mode keys are routed but never start a game. */
  lemma ModeKeysDoNotStart()
    ensures !StartKey("+") && !StartKey("/")
  {
    assert "+" !in Player1Keys.phoneMap.Keys && "+" !in Player2Keys.phoneMap.Keys;
  }

  /** Length of a game in seconds. */
  const GameSeconds := 60

  /** The session's state cells. */
  datatype Session = Session(targetText: string, isTestActive: bool, timeLeft: int, testCompleted: bool)

  /** On mount: a sentence chosen, no game running, the full minute on the clock. */
  function InitialSession(sentence: string): Session
  {
    Session(sentence, false, GameSeconds, false)
  }

  /**
   * The session invariant: the clock stays within the minute, a running game has time left and
   * is not completed, and a clock at zero means the game is over.
   */
  predicate SessionInv(s: Session)
  {
    && 0 <= s.timeLeft <= GameSeconds
    && (s.isTestActive ==> s.timeLeft > 0 && !s.testCompleted)
    && (s.timeLeft == 0 ==> s.testCompleted && !s.isTestActive)
  }

  lemma InitialSessionInv(sentence: string)
    ensures SessionInv(InitialSession(sentence))
  {
  }

  /**
   * One second of the timer: while a game runs with time left the interval callback takes one
   * second off; when that reaches zero the timer effect stops the game and marks it completed.
   */
  function TimerStep(s: Session): (r: Session)
    ensures s.isTestActive && s.timeLeft > 0 ==> r.timeLeft == s.timeLeft - 1
    ensures s.isTestActive && s.timeLeft == 1 ==> !r.isTestActive && r.testCompleted
    ensures s.isTestActive && s.timeLeft > 1 ==> r == s.(timeLeft := s.timeLeft - 1)
    ensures !(s.isTestActive && s.timeLeft > 0) ==> r == s
    ensures r.targetText == s.targetText
    ensures SessionInv(s) ==> SessionInv(r)
  {
    if s.isTestActive && s.timeLeft > 0 then
      var t := s.timeLeft - 1;
      if t == 0 then s.(timeLeft := 0, isTestActive := false, testCompleted := true)
      else s.(timeLeft := t)
    else s
  }

  /** handleTestEnd: the game stops and is marked completed. */
  function EndTest(s: Session): (r: Session)
    ensures !r.isTestActive && r.testCompleted
    ensures r.targetText == s.targetText && r.timeLeft == s.timeLeft
    ensures SessionInv(s) ==> SessionInv(r)
  {
    s.(isTestActive := false, testCompleted := true)
  }

  /** startNewGame: a new sentence, the full minute, running and not completed. */
  function NewGame(sentence: string): (r: Session)
    ensures r.targetText == sentence && r.timeLeft == GameSeconds
    ensures r.isTestActive && !r.testCompleted
    ensures SessionInv(r)
  {
    Session(sentence, true, GameSeconds, false)
  }

  /**
   * The start-on-key handler: a key either keymap has starts a new game, but only while no game
   * is running and none has completed (after that only the Play Again button restarts).
   */
  function StartOnKeyStep(s: Session, key: string, sentence: string): (r: Session)
    ensures r != s ==> !s.isTestActive && !s.testCompleted && StartKey(key)
    ensures !s.isTestActive && !s.testCompleted && StartKey(key) ==> r == NewGame(sentence)
    ensures SessionInv(s) ==> SessionInv(r)
  {
    if !s.isTestActive && !s.testCompleted && StartKey(key) then NewGame(sentence) else s
  }

  /** `n` seconds of the timer. */
  function Ticks(s: Session, n: nat): Session
    decreases n
  {
    if n == 0 then s else Ticks(TimerStep(s), n - 1)
  }

  /** A running game with `n` seconds left is over, with the clock at zero, after exactly `n` ticks. */
  lemma {:induction false} CountdownEnds(s: Session, n: nat)
    requires SessionInv(s) && s.isTestActive && s.timeLeft == n
    ensures Ticks(s, n) == s.(timeLeft := 0, isTestActive := false, testCompleted := true)
    decreases n
  {
    if n == 1 {
      assert Ticks(s, 1) == Ticks(TimerStep(s), 0);
    } else {
      CountdownEnds(TimerStep(s), n - 1);
    }
  }

  /** A new game runs for exactly one minute of ticks and then is completed. */
  lemma NewGameLastsAMinute(sentence: string)
    ensures var r := Ticks(NewGame(sentence), GameSeconds);
            r == Session(sentence, false, 0, true)
  {
    CountdownEnds(NewGame(sentence), GameSeconds);
  }

  /** A completed game stays completed under the timer and any key; only startNewGame leaves it. */
  lemma CompletedIsStable(s: Session, key: string, sentence: string, n: nat)
    requires SessionInv(s) && s.testCompleted
    ensures TimerStep(s) == s && StartOnKeyStep(s, key, sentence) == s
    ensures Ticks(s, n) == s
    decreases n
  {
    if n > 0 {
      CompletedIsStable(s, key, sentence, n - 1);
    }
  }

  /** The outcome shown once a game is completed. */
  datatype Outcome = Tie | Player1Wins | Player2Wins

  /** determineWinner: nothing before completion, a tie on equal WPM, else the faster player. */
  function DetermineWinner(testCompleted: bool, wpm1: int, wpm2: int): (w: Option<Outcome>)
    ensures w == None <==> !testCompleted
    ensures w == Some(Tie) <==> testCompleted && wpm1 == wpm2
    ensures w == Some(Player1Wins) <==> testCompleted && wpm1 > wpm2
    ensures w == Some(Player2Wins) <==> testCompleted && wpm1 < wpm2
  {
    if !testCompleted then None
    else if wpm1 == wpm2 then Some(Tie)
    else if wpm1 > wpm2 then Some(Player1Wins)
    else Some(Player2Wins)
  }

  /** Swapping the players' speeds swaps the winner and keeps a tie. */
  lemma DetermineWinnerSymmetric(testCompleted: bool, wpm1: int, wpm2: int)
    ensures DetermineWinner(testCompleted, wpm1, wpm2) == Some(Player1Wins)
            <==> DetermineWinner(testCompleted, wpm2, wpm1) == Some(Player2Wins)
    ensures DetermineWinner(testCompleted, wpm1, wpm2) == Some(Tie)
            <==> DetermineWinner(testCompleted, wpm2, wpm1) == Some(Tie)
  {
  }

  /** The session component: its state cells as fields, and the two players' typing hooks. */
  class TwoPlayerGame {
    var targetText: string
    var isTestActive: bool
    var timeLeft: int
    var testCompleted: bool
    const player1: TypingGame
    const player2: TypingGame

    function State(): Session
      reads this
    {
      Session(targetText, isTestActive, timeLeft, testCompleted)
    }

    ghost predicate Valid()
      reads this, player1, player2
    {
      && SessionInv(State())
      && player1 != player2
      && player1.config == Player1Keys && player2.config == Player2Keys
      && player1.Valid() && player2.Valid()
    }

    /** Mounting: the sentence drawn at random is a parameter; both players start empty. */
    constructor (sentence: string)
      ensures Valid() && fresh(player1) && fresh(player2)
      ensures State() == InitialSession(sentence)
      ensures player1.State() == InitialState && player2.State() == InitialState
      ensures player1.startTime == None && player2.startTime == None
    {
      Player1KeysWellFormed();
      Player2KeysWellFormed();
      targetText, isTestActive, timeLeft, testCompleted := sentence, false, GameSeconds, false;
      player1 := new TypingGame(Player1Keys);
      player2 := new TypingGame(Player2Keys);
    }

    /** The interval callback followed by the timer effect. */
    method Tick()
      requires Valid()
      modifies this
      ensures Valid() && State() == TimerStep(old(State()))
    {
      if isTestActive && timeLeft > 0 {
        timeLeft := timeLeft - 1;
        if timeLeft == 0 {
          isTestActive := false;
          testCompleted := true;
        }
      }
    }

    /** handleTestEnd. */
    method HandleTestEnd()
      requires Valid()
      modifies this
      ensures Valid() && State() == EndTest(old(State()))
    {
      isTestActive := false;
      testCompleted := true;
    }

    /**
     * startNewGame, followed by each player's start-time effect when the active flag turns on.
     * The players' text and decoder state are left as they were.
     */
    method StartNewGame(sentence: string, now: int)
      requires Valid()
      modifies this, player1, player2
      ensures Valid() && State() == NewGame(sentence)
      ensures player1.State() == old(player1.State()) && player2.State() == old(player2.State())
      ensures !old(isTestActive) && !Scoring.StartTimeSet(old(player1.startTime)) ==> player1.startTime == Some(now)
      ensures !old(isTestActive) && !Scoring.StartTimeSet(old(player2.startTime)) ==> player2.startTime == Some(now)
      ensures Scoring.StartTimeSet(old(player1.startTime)) ==> player1.startTime == old(player1.startTime)
      ensures Scoring.StartTimeSet(old(player2.startTime)) ==> player2.startTime == old(player2.startTime)
      ensures old(isTestActive) ==> player1.startTime == old(player1.startTime) && player2.startTime == old(player2.startTime)
    {
      var wasActive := isTestActive;
      targetText, timeLeft, isTestActive, testCompleted := sentence, GameSeconds, true, false;
      if !wasActive {
        player1.OnTestActiveChanged(true, now);
        player2.OnTestActiveChanged(true, now);
      }
    }

    /** The start-on-key handler. */
    method StartOnKey(key: string, sentence: string, now: int)
      requires Valid()
      modifies this, player1, player2
      ensures Valid() && State() == StartOnKeyStep(old(State()), key, sentence)
      ensures player1.State() == old(player1.State()) && player2.State() == old(player2.State())
      // A key that starts the game records each player's start time if it was unset; otherwise they stay.
      ensures StartOnKeyStep(old(State()), key, sentence) != old(State()) && !Scoring.StartTimeSet(old(player1.startTime))
              ==> player1.startTime == Some(now)
      ensures StartOnKeyStep(old(State()), key, sentence) != old(State()) && !Scoring.StartTimeSet(old(player2.startTime))
              ==> player2.startTime == Some(now)
      ensures StartOnKeyStep(old(State()), key, sentence) == old(State()) || Scoring.StartTimeSet(old(player1.startTime))
              ==> player1.startTime == old(player1.startTime)
      ensures StartOnKeyStep(old(State()), key, sentence) == old(State()) || Scoring.StartTimeSet(old(player2.startTime))
              ==> player2.startTime == old(player2.startTime)
    {
      if !isTestActive && !testCompleted && (key in Player1Keys.phoneMap || key in Player2Keys.phoneMap) {
        StartNewGame(sentence, now);
      }
    }

    /**
     * The routing handler: the raw key goes to player 1's decoder if it is one of player 1's
     * keys, and to player 2's if it is one of player 2's. The decoders see the session's
     * timeLeft, not whether a game is running.
     */
    method RouteKey(key: string, now: int)
      requires Valid()
      modifies player1, player2
      ensures Valid()
      ensures player1.State() == if RoutesToPlayer1(key)
                                 then Decode(Player1Keys, old(player1.State()), NormalizeKey(key), timeLeft, now)
                                 else old(player1.State())
      ensures player2.State() == if RoutesToPlayer2(key)
                                 then Decode(Player2Keys, old(player2.State()), NormalizeKey(key), timeLeft, now)
                                 else old(player2.State())
      ensures player1.startTime == old(player1.startTime) && player2.startTime == old(player2.startTime)
    {
      if key in Player1Keys.phoneMap || key == Player1Keys.modeSwitchKey {
        player1.HandleKeyDown(key, timeLeft, now);
      }
      if key in Player2Keys.phoneMap || key == Player2Keys.modeSwitchKey {
        player2.HandleKeyDown(key, timeLeft, now);
      }
    }

    /** determineWinner over the players' current speeds at time `now`. */
    method Winner(now: int) returns (w: Option<Outcome>)
      ensures w == DetermineWinner(testCompleted,
                                   Scoring.Wpm(Scoring.CountMatches(player1.text, targetText), player1.startTime, now),
                                   Scoring.Wpm(Scoring.CountMatches(player2.text, targetText), player2.startTime, now))
    {
      var wpm1 := Scoring.CalculateWpm(player1.text, targetText, player1.startTime, now);
      var wpm2 := Scoring.CalculateWpm(player2.text, targetText, player2.startTime, now);
      if !testCompleted {
        w := None;
      } else if wpm1 == wpm2 {
        w := Some(Tie);
      } else if wpm1 > wpm2 {
        w := Some(Player1Wins);
      } else {
        w := Some(Player2Wins);
      }
    }
  }
}
