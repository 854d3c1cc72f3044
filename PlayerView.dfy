/**
 * What a player's panel computes from the target sentence and the typed text (Player): the
 * class of each target character (correct, incorrect or remaining), the word the player is on,
 * whether a character is marked as part of that word, the current-character mark, and the
 * timer display. The word scans are loops and are proved against their specifications; the
 * word-membership scan keeps the component's off-by-one for every word after the first.
 */
module PlayerView {
  import opened Strings
  import Scoring
  import TwoPlayerGame

  /** The room word `i` takes in the scans: its length, plus one for the space before it after the first word. */
  function Span(words: seq<string>, i: nat): nat
    requires i < |words|
  {
    |words[i]| + if i > 0 then 1 else 0
  }

  /** The scans' running total before word `i`: the spans of the words before it. */
  function Before(words: seq<string>, i: nat): nat
    requires i <= |words|
    decreases i
  {
    if i == 0 then 0 else Before(words, i - 1) + Span(words, i - 1)
  }

  /** The total length of the first `i` words. */
  function LengthsBefore(words: seq<string>, i: nat): nat
    requires i <= |words|
    decreases i
  {
    if i == 0 then 0 else LengthsBefore(words, i - 1) + |words[i - 1]|
  }

  /** The running total before word `i >= 1` is the earlier words' lengths plus the `i - 1` spaces between them. */
  lemma {:induction false} BeforeIsLengthsAndSpaces(words: seq<string>, i: nat)
    requires 1 <= i <= |words|
    ensures Before(words, i) == LengthsBefore(words, i) + (i - 1)
    decreases i
  {
    if i > 1 {
      BeforeIsLengthsAndSpaces(words, i - 1);
    }
  }

  /** Where word `i` really starts in the sentence the words were split from. */
  function WordStart(words: seq<string>, i: nat): nat
    requires i < |words|
  {
    Before(words, i) + if i > 0 then 1 else 0
  }

  /**
   * The current-word search: the first word whose running total including itself exceeds the
   * number of typed characters, and word 0 when none does.
   */
  method FindCurrentWord(words: seq<string>, textLength: nat) returns (currentWordIndex: nat)
    requires |words| >= 1
    ensures currentWordIndex < |words|
    ensures forall j :: 0 < j <= currentWordIndex ==> Before(words, j) <= textLength
    ensures Before(words, currentWordIndex + 1) > textLength
            || (currentWordIndex == 0 && forall j :: 0 < j <= |words| ==> Before(words, j) <= textLength)
  {
    currentWordIndex := 0;
    var charsBeforeCurrentWord := 0;
    var i := 0;
    while i < |words|
      invariant 0 <= i <= |words|
      invariant charsBeforeCurrentWord == Before(words, i)
      invariant forall j :: 0 < j <= i ==> Before(words, j) <= textLength
    {
      if charsBeforeCurrentWord + |words[i]| + (if i > 0 then 1 else 0) > textLength {
        currentWordIndex := i;
        return;
      }
      charsBeforeCurrentWord := charsBeforeCurrentWord + |words[i]| + (if i > 0 then 1 else 0);
      i := i + 1;
    }
  }

  /** The membership scan's range for word `i`: `|words[i]|` positions from the running total before it. */
  predicate InScanRange(words: seq<string>, i: nat, index: int)
    requires i < |words|
  {
    Before(words, i) <= index < Before(words, i) + |words[i]|
  }

  /**
   * The per-character membership scan: the character at `index` is marked as part of the
   * current word when the first scanned range that contains it is the current word's.
   */
  method IsInCurrentWord(words: seq<string>, index: int, currentWordIndex: nat) returns (isCurrentWord: bool)
    ensures isCurrentWord <==>
              currentWordIndex < |words| && InScanRange(words, currentWordIndex, index)
              && forall j :: 0 <= j < currentWordIndex ==> !InScanRange(words, j, index)
  {
    isCurrentWord := false;
    var wordStart := 0;
    var i := 0;
    while i < |words|
      invariant 0 <= i <= |words|
      invariant wordStart == Before(words, i)
      invariant forall j :: 0 <= j < i ==> !InScanRange(words, j, index)
    {
      var wordLength := |words[i]| + (if i > 0 then 1 else 0);
      if index >= wordStart && index < wordStart + |words[i]| {
        assert InScanRange(words, i, index);
        isCurrentWord := i == currentWordIndex;
        return;
      }
      wordStart := wordStart + wordLength;
      i := i + 1;
    }
  }

  /** The running totals never decrease. */
  lemma {:induction false} BeforeMonotone(words: seq<string>, i: nat, j: nat)
    requires i <= j <= |words|
    ensures Before(words, i) <= Before(words, j)
    decreases j
  {
    if i < j {
      BeforeMonotone(words, i, j - 1);
    }
  }

  /** The scanned ranges of different words never overlap, so the first match is the only match. */
  lemma ScanRangesDisjoint(words: seq<string>, i: nat, j: nat, index: int)
    requires i < j < |words|
    ensures !(InScanRange(words, i, index) && InScanRange(words, j, index))
  {
    BeforeMonotone(words, i + 1, j);
  }

  /** Membership is therefore just the current word's scanned range. */
  lemma InCurrentWordIsRange(words: seq<string>, index: int, currentWordIndex: nat)
    requires currentWordIndex < |words|
    ensures (InScanRange(words, currentWordIndex, index) && forall j :: 0 <= j < currentWordIndex ==> !InScanRange(words, j, index))
            <==> InScanRange(words, currentWordIndex, index)
  {
    forall j | 0 <= j < currentWordIndex
      ensures InScanRange(words, currentWordIndex, index) ==> !InScanRange(words, j, index)
    {
      ScanRangesDisjoint(words, j, currentWordIndex, index);
    }
  }

  /** Dropping the first word shifts every later running total by that word and its space. */
  lemma {:induction false} BeforeShift(words: seq<string>, i: nat)
    requires 2 <= i <= |words|
    ensures Before(words, i) == |words[0]| + 1 + Before(words[1..], i - 1)
    decreases i
  {
    if i > 2 {
      BeforeShift(words, i - 1);
    }
  }

  /** The first word opens the joined sentence. */
  lemma FirstWordInJoin(words: seq<string>)
    requires |words| >= 1
    ensures |words[0]| <= |Join(words)| && Join(words)[..|words[0]|] == words[0]
  {
    if |words| > 1 {
      assert Join(words) == words[0] + (" " + Join(words[1..]));
    }
  }

  /** After the first word come a space and the join of the remaining words. */
  lemma JoinAfterFirst(words: seq<string>)
    requires |words| >= 2
    ensures |Join(words)| == |words[0]| + 1 + |Join(words[1..])|
    ensures Join(words)[|words[0]|] == ' '
    ensures Join(words)[|words[0]| + 1..] == Join(words[1..])
  {
    assert Join(words) == words[0] + " " + Join(words[1..]);
  }

  /**
   * In the sentence the words join back into, word `i` sits at WordStart(words, i), and for
   * every word after the first the position before it holds the separating space.
   */
  lemma {:induction false} WordsInJoin(words: seq<string>, i: nat)
    requires i < |words|
    ensures WordStart(words, i) + |words[i]| <= |Join(words)|
    ensures Join(words)[WordStart(words, i)..WordStart(words, i) + |words[i]|] == words[i]
    ensures i > 0 ==> Join(words)[WordStart(words, i) - 1] == ' '
    decreases i
  {
    if i == 0 {
      FirstWordInJoin(words);
    } else {
      var rest := words[1..];
      var off := |words[0]| + 1;
      JoinAfterFirst(words);
      if i == 1 {
        FirstWordInJoin(rest);
      } else {
        BeforeShift(words, i);
        WordsInJoin(rest, i - 1);
      }
      assert WordStart(words, i) == off + WordStart(rest, i - 1);
      SuffixSlice(Join(words), off, WordStart(rest, i - 1), |words[i]|);
    }
  }

  /** A slice of a suffix is a slice of the whole, shifted by where the suffix starts. */
  lemma SuffixSlice(s: string, off: nat, from: nat, len: nat)
    requires off + from + len <= |s|
    ensures s[off..][from..from + len] == s[off + from..off + from + len]
  {
  }

  /**
   * The off-by-one of the membership scan, for the words of a target sentence: the range of
   * every word after the first starts on the space in front of it, one before the word's first
   * letter, and so stops short of the word's last letter.
   */
  lemma ScanRangeOffByOne(target: string, i: nat)
    requires 1 <= i < |Split(target)|
    ensures var words := Split(target);
            && Before(words, i) == WordStart(words, i) - 1
            && WordStart(words, i) + |words[i]| <= |target|
            && target[WordStart(words, i)..WordStart(words, i) + |words[i]|] == words[i]
            && target[Before(words, i)] == ' '
            && (|words[i]| > 0 ==>
                  InScanRange(words, i, WordStart(words, i) - 1)
                  && !InScanRange(words, i, WordStart(words, i) + |words[i]| - 1))
  {
    var words := Split(target);
    JoinSplit(target);
    WordsInJoin(words, i);
  }

  /** The class of a target character against the typed text. */
  datatype CharStatus = Correct | Incorrect | Remaining

  function Status(text: string, target: string, index: nat): (st: CharStatus)
    requires index < |target|
    ensures st == Remaining <==> index >= |text|
    ensures st == Correct <==> index < |text| && text[index] == target[index]
    ensures st == Incorrect <==> index < |text| && text[index] != target[index]
  {
    if index < |text| then (if text[index] == target[index] then Correct else Incorrect) else Remaining
  }

  /** The target positions shown as correct. */
  function CorrectPositions(text: string, target: string): set<int>
  {
    set i | 0 <= i < |target| && Status(text, target, i) == Correct
  }

  /** As many characters are shown correct as the scoring counts as valid. */
  lemma CorrectIsValidCount(text: string, target: string)
    ensures |CorrectPositions(text, target)| == Scoring.CountMatches(text, target)
  {
    Scoring.CountMatchesIsMatchPositions(text, target);
    assert CorrectPositions(text, target) == Scoring.MatchPositions(text, target);
  }

  /**
   * The current-character mark: never on a space; on every typed non-space mismatch; and on
   * the next position to type when nothing is typed yet or the last typed character matched.
   */
  function IsCurrentChar(text: string, target: string, index: nat): (b: bool)
    requires index < |target|
    ensures target[index] == ' ' ==> !b
    ensures target[index] != ' ' && Status(text, target, index) == Incorrect ==> b
    ensures index == |text| ==> (b <==> target[index] != ' ' && (|text| == 0 || text[|text| - 1] == target[|text| - 1]))
    ensures index > |text| ==> !b
  {
    target[index] != ' '
    && ((index == |text| && (|text| == 0 || text[|text| - 1] == target[|text| - 1]))
        || (index < |text| && text[index] != target[index]))
  }

  /** At most one untyped position is marked, and a marked typed position is a mistake. */
  lemma CurrentCharMarks(text: string, target: string, index: nat)
    requires index < |target|
    ensures IsCurrentChar(text, target, index) && index < |text| ==> Status(text, target, index) == Incorrect
    ensures IsCurrentChar(text, target, index) && index >= |text| ==> index == |text|
  {
  }

  /** The timer shows the time left while a game runs, the full minute otherwise. */
  function TimerDisplay(isTestActive: bool, timeLeft: int): (shown: int)
    ensures isTestActive ==> shown == timeLeft
    ensures !isTestActive ==> shown == 60
    ensures 1 <= timeLeft <= 60 ==> 1 <= shown <= 60
  {
    if isTestActive then timeLeft else 60
  }

  /**
   * In any session the timer shows a number from 1 to 60, never 0, and the full minute once
   * the game is completed.
   */
  lemma TimerDisplayInSession(s: TwoPlayerGame.Session)
    requires TwoPlayerGame.SessionInv(s)
    ensures 1 <= TimerDisplay(s.isTestActive, s.timeLeft) <= 60
    ensures s.testCompleted ==> TimerDisplay(s.isTestActive, s.timeLeft) == 60
  {
  }

  /** At time-out the display jumps from 1 straight back to 60. */
  lemma TimerJumpsBackAtTimeOut(s: TwoPlayerGame.Session)
    requires TwoPlayerGame.SessionInv(s) && s.isTestActive && s.timeLeft == 1
    ensures TimerDisplay(s.isTestActive, s.timeLeft) == 1
    ensures var r := TwoPlayerGame.TimerStep(s);
            TimerDisplay(r.isTestActive, r.timeLeft) == 60
  {
  }

  /** The timer is styled as running low in the last ten seconds of a running game. */
  function TimerLow(isTestActive: bool, timeLeft: int): (low: bool)
    ensures low <==> isTestActive && timeLeft <= 10
    ensures low ==> TimerDisplay(isTestActive, timeLeft) <= 10
  {
    isTestActive && timeLeft <= 10
  }
}
