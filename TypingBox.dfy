/**
 * The single-player text box (TypingBox): the multitap decoder without case mode, key
 * normalisation or time limit. Backspace always erases and forgets the cycle; an unmapped key
 * does nothing; a repeated key within 1000 ms cycles through its candidates, any other mapped
 * key appends its first candidate. BoxKeyDown specifies one step; the class TypingBox holds
 * the state cells and its HandleKeyDown is proved to follow BoxKeyDown.
 */
module TypingBox {
  import opened Wrappers
  import opened Strings

  /** The box's keypad: each key with its cycle of candidates. */
  const PhoneMap: map<string, seq<string>> := map[
    "7" := [".", ",", "?", "!", "'", "\"", "-", "(", ")", "@", "/", ":", "1"],
    "8" := ["a", "b", "c"],
    "9" := ["d", "e", "f"],
    "4" := ["g", "h", "i"],
    "5" := ["j", "k", "l"],
    "6" := ["m", "n", "o"],
    "1" := ["p", "q", "r", "s"],
    "2" := ["t", "u", "v"],
    "3" := ["w", "x", "y", "z"],
    "0" := [" "]
  ]

  /** Presses of the same key closer together than this cycle instead of appending. */
  const CycleTimeoutMs := 1000

  /** Every key has a non-empty list of one-character candidates, and Backspace is not a key of it. */
  predicate WellFormedMap(m: map<string, seq<string>>)
  {
    && "Backspace" !in m
    && forall k :: k in m ==> |m[k]| > 0 && forall j :: 0 <= j < |m[k]| ==> |m[k][j]| == 1
  }

  /** The box's own keypad meets what the decoder needs of it. */
  lemma PhoneMapWellFormed()
    ensures WellFormedMap(PhoneMap)
  {
    forall k | k in PhoneMap
      ensures |PhoneMap[k]| > 0 && forall j :: 0 <= j < |PhoneMap[k]| ==> |PhoneMap[k][j]| == 1
    {
      assert k in {"7", "8", "9", "4", "5", "6", "1", "2", "3", "0"};
    }
  }

  /** The box's state cells. */
  datatype BoxState = BoxState(text: string, lastKey: Option<string>, pressCount: nat, lastPressTime: int)

  const BoxInitial := BoxState("", None, 0, 0)

  /**
   * The box invariant: a remembered key is mapped, its candidate index is in range and the
   * character it produced is still the last one of the text.
   */
  predicate BoxInv(m: map<string, seq<string>>, s: BoxState)
  {
    match s.lastKey
    case None => s.pressCount == 0
    case Some(k) => k in m && s.pressCount < |m[k]| && |s.text| > 0
  }

  /** Which branch of the box's handler a key takes, in the handler's order of tests. */
  datatype BoxPress = Erase | Ignored | Cycle | Append

  function BoxPressKind(m: map<string, seq<string>>, s: BoxState, key: string, now: int): BoxPress
  {
    if key == "Backspace" then Erase
    else if key !in m then Ignored
    else if s.lastKey == Some(key) && now - s.lastPressTime < CycleTimeoutMs then Cycle
    else Append
  }

  /** handleKeyDown of the text box as a state transition. */
  function BoxKeyDown(m: map<string, seq<string>>, s: BoxState, key: string, now: int): (r: BoxState)
    requires forall k :: k in m ==> |m[k]| > 0
    // Backspace erases the last character if there is one, and always forgets the cycle.
    ensures BoxPressKind(m, s, key, now) == Erase ==>
              && r.lastKey == None && r.pressCount == 0 && r.lastPressTime == now
              && (|s.text| == 0 ==> r.text == "")
              && (|s.text| > 0 ==> r.text + [s.text[|s.text| - 1]] == s.text)
    // An unmapped key changes no state.
    ensures BoxPressKind(m, s, key, now) == Ignored ==> r == s
    // A cycle press advances the candidate index modulo the number of candidates and rewrites the last character.
    ensures BoxPressKind(m, s, key, now) == Cycle ==>
              && r.pressCount == (s.pressCount + 1) % |m[key]|
              && r.lastKey == Some(key) && r.lastPressTime == now
              && (|s.text| > 0 ==> r.text == s.text[..|s.text| - 1] + m[key][r.pressCount])
    // Any other mapped press appends the key's first candidate and restarts the cycle.
    ensures BoxPressKind(m, s, key, now) == Append ==>
              r == BoxState(s.text + m[key][0], Some(key), 0, now)
  {
    match BoxPressKind(m, s, key, now)
    case Erase => BoxState(DropLast(s.text), None, 0, now)
    case Ignored => s
    case Cycle =>
      var letters := m[key];
      var next := (s.pressCount + 1) % |letters|;
      BoxState(DropLast(s.text) + letters[next], Some(key), next, now)
    case Append => BoxState(s.text + m[key][0], Some(key), 0, now)
  }

  /** Every transition of the box keeps its invariant. */
  lemma BoxKeyDownKeepsInv(m: map<string, seq<string>>, s: BoxState, key: string, now: int)
    requires WellFormedMap(m) && BoxInv(m, s)
    ensures BoxInv(m, BoxKeyDown(m, s, key, now))
  {
    var r := BoxKeyDown(m, s, key, now);
    match BoxPressKind(m, s, key, now)
    case Erase =>
    case Ignored =>
    case Cycle =>
      assert |m[key][r.pressCount]| == 1;
    case Append =>
      assert |m[key][0]| == 1;
  }

  /**
   * A cycle press never appends: the text keeps its length and every character but the last,
   * and the last becomes the key's next candidate.
   */
  lemma BoxCycleReplacesLast(m: map<string, seq<string>>, s: BoxState, key: string, now: int)
    requires WellFormedMap(m) && BoxInv(m, s)
    requires BoxPressKind(m, s, key, now) == Cycle
    ensures var r := BoxKeyDown(m, s, key, now);
            && BoxInv(m, r)
            && r.pressCount == (s.pressCount + 1) % |m[key]| && r.pressCount < |m[key]|
            && |r.text| == |s.text|
            && r.text[..|s.text| - 1] == s.text[..|s.text| - 1]
            && r.text[|s.text| - 1..] == m[key][r.pressCount]
  {
    var r := BoxKeyDown(m, s, key, now);
    BoxKeyDownKeepsInv(m, s, key, now);
    var pre := s.text[..|s.text| - 1];
    assert r.text == pre + m[key][r.pressCount];
    assert |pre| == |s.text| - 1;
  }

  /** After Backspace the cycle is forgotten, so the next mapped press appends whatever the timing. */
  lemma BackspaceThenPressAppends(m: map<string, seq<string>>, s: BoxState, key: string, t1: int, t2: int)
    requires forall k :: k in m ==> |m[k]| > 0
    requires key in m && key != "Backspace"
    ensures var s1 := BoxKeyDown(m, s, "Backspace", t1);
            var s2 := BoxKeyDown(m, s1, key, t2);
            && BoxPressKind(m, s1, key, t2) == Append
            && s2.text == DropLast(s.text) + m[key][0]
  {
  }

  /** The text box component: its keypad fixed, its state cells as fields. */
  class TypingBox {
    const phoneMap: map<string, seq<string>>
    var text: string
    var lastKey: Option<string>
    var pressCount: nat
    var lastPressTime: int

    function State(): BoxState
      reads this
    {
      BoxState(text, lastKey, pressCount, lastPressTime)
    }

    ghost predicate Valid()
      reads this
    {
      WellFormedMap(phoneMap) && BoxInv(phoneMap, State())
    }

    constructor ()
      ensures Valid() && phoneMap == PhoneMap && State() == BoxInitial
    {
      phoneMap := PhoneMap;
      text, lastKey, pressCount, lastPressTime := "", None, 0, 0;
      PhoneMapWellFormed();
    }

    /** handleKeyDown: one key event at time `now`. */
    method HandleKeyDown(key: string, now: int)
      requires Valid()
      modifies this
      ensures State() == BoxKeyDown(phoneMap, old(State()), key, now)
      ensures Valid()
    {
      BoxKeyDownKeepsInv(phoneMap, State(), key, now);
      if key == "Backspace" {
        text := DropLast(text);
        lastKey := None;
        pressCount := 0;
        lastPressTime := now;
        return;
      }
      if key !in phoneMap {
        return;
      }
      if lastKey == Some(key) && now - lastPressTime < CycleTimeoutMs {
        var letters := phoneMap[key];
        pressCount := (pressCount + 1) % |letters|;
        text := DropLast(text) + letters[pressCount];
      } else {
        pressCount := 0;
        text := text + phoneMap[key][0];
      }
      lastKey := Some(key);
      lastPressTime := now;
    }
  }

  /** The two keys of the worked example, as the box's keypad has them. */
  lemma PhoneMapExampleKeys()
    ensures "2" in PhoneMap && PhoneMap["2"] == ["t", "u", "v"]
    ensures "3" in PhoneMap && PhoneMap["3"] == ["w", "x", "y", "z"]
  {
  }

  /** The four '2' presses and the '3' press of the worked example, one step at a time. */
  lemma ExampleSteps(m: map<string, seq<string>>)
    requires forall k :: k in m ==> |m[k]| > 0
    requires "2" in m && m["2"] == ["t", "u", "v"]
    requires "3" in m && m["3"] == ["w", "x", "y", "z"]
    ensures BoxKeyDown(m, BoxInitial, "2", 1000) == BoxState("t", Some("2"), 0, 1000)
    ensures BoxKeyDown(m, BoxState("t", Some("2"), 0, 1000), "2", 1200) == BoxState("u", Some("2"), 1, 1200)
    ensures BoxKeyDown(m, BoxState("u", Some("2"), 1, 1200), "2", 1400) == BoxState("v", Some("2"), 2, 1400)
    ensures BoxKeyDown(m, BoxState("v", Some("2"), 2, 1400), "2", 1600) == BoxState("t", Some("2"), 0, 1600)
    ensures BoxKeyDown(m, BoxState("t", Some("2"), 0, 1600), "3", 1800) == BoxState("tw", Some("3"), 0, 1800)
  {
  }

  /**
   * Pressing '2' four times, 200 ms apart, shows "t", "u", "v" and "t" again; pressing '3'
   * next starts a new letter, "tw".
   */
  method WorkedExample() returns (texts: seq<string>)
    ensures texts == ["t", "u", "v", "t", "tw"]
  {
    var box := new TypingBox();
    PhoneMapExampleKeys();
    ExampleSteps(box.phoneMap);
    texts := [];
    box.HandleKeyDown("2", 1000);
    texts := texts + [box.text];
    box.HandleKeyDown("2", 1200);
    texts := texts + [box.text];
    box.HandleKeyDown("2", 1400);
    texts := texts + [box.text];
    box.HandleKeyDown("2", 1600);
    texts := texts + [box.text];
    box.HandleKeyDown("3", 1800);
    texts := texts + [box.text];
  }
}
