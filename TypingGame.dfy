/**
 * The per-player typing hook (useTypingGame): key normalisation, the multitap decoder with
 * its case mode, delete keys and the 1000 ms cycle rule, reset, and the start-time effect.
 * A decoder step is specified by the pure function Decode over a DecoderState; the class
 * TypingGame holds the same state in fields and its HandleKeyDown is proved to follow Decode.
 */
module TypingGame {
  import opened Wrappers
  import opened Strings
  import Scoring

  /** 'abc' and 'ABC'. */
  datatype WritingMode = Lower | Upper

  function Toggle(m: WritingMode): (t: WritingMode)
    ensures t != m
  {
    if m == Lower then Upper else Lower
  }

  /** A player's keys: key symbol to its cycle of candidates, and the key that switches case. */
  datatype KeyboardConfig = KeyboardConfig(phoneMap: map<string, seq<string>>, modeSwitchKey: string)

  /** Presses of the same key closer together than this cycle instead of appending. */
  const CycleTimeoutMs := 1000

  predicate IsDeleteKey(key: string)
  {
    key == "Backspace" || key == "Delete"
  }

  /** Every key has at least one candidate (the handler reads `letters[0]` and takes `% letters.length`). */
  predicate NonEmptyCandidates(phoneMap: map<string, seq<string>>)
  {
    forall k :: k in phoneMap ==> |phoneMap[k]| > 0
  }

  /**
   * What the decoder needs of a configuration: non-empty candidate lists, and one-character
   * candidates under every key that can reach the cycle/append code (the delete keys and the
   * mode key are handled before it, so `''` entries there are harmless).
   */
  predicate ConfigOk(cfg: KeyboardConfig)
  {
    && NonEmptyCandidates(cfg.phoneMap)
    && forall k :: k in cfg.phoneMap && !IsDeleteKey(k) && k != cfg.modeSwitchKey ==>
         forall j :: 0 <= j < |cfg.phoneMap[k]| ==> |cfg.phoneMap[k][j]| == 1
  }

  /** The state cells the key handler reads and writes. */
  datatype DecoderState = DecoderState(
    text: string,
    lastKey: Option<string>,
    pressCount: nat,
    lastPressTime: int,
    writingMode: WritingMode)

  const InitialState := DecoderState("", None, 0, 0, Lower)

  /**
   * The decoder invariant: a remembered key is a mapped key whose candidate index is in range,
   * and the character it produced is still the last one of the text.
   */
  predicate Inv(cfg: KeyboardConfig, s: DecoderState)
  {
    match s.lastKey
    case None => s.pressCount == 0
    case Some(k) => k in cfg.phoneMap && s.pressCount < |cfg.phoneMap[k]| && |s.text| > 0
  }

  /** Keys from the numeric pad or the digit row ("Numpad7", "Digit7") stand for their last character. */
  function NormalizeKey(key: string): (k: string)
    ensures HasPrefix(key, "Numpad") || HasPrefix(key, "Digit") ==> k == [key[|key| - 1]]
    ensures !(HasPrefix(key, "Numpad") || HasPrefix(key, "Digit")) ==> k == key
    ensures |k| <= |key|
    // The result is canonical: no key-code prefix is left on it.
    ensures !HasPrefix(k, "Numpad") && !HasPrefix(k, "Digit")
  {
    if HasPrefix(key, "Numpad") || HasPrefix(key, "Digit") then key[|key| - 1..] else key
  }

  /** Normalising is idempotent: a normalised key is already canonical. */
  lemma NormalizeKeyIdempotent(key: string)
    ensures NormalizeKey(NormalizeKey(key)) == NormalizeKey(key)
  {
    var k := NormalizeKey(key);
    if HasPrefix(key, "Numpad") || HasPrefix(key, "Digit") {
      assert |k| == 1;
      assert !HasPrefix(k, "Numpad") && !HasPrefix(k, "Digit");
    }
  }

  /** The numeric-pad and digit-row spellings of a key both stand for the key's character itself. */
  lemma NormalizeKeyPadAndRow(d: char)
    ensures NormalizeKey("Numpad" + [d]) == [d]
    ensures NormalizeKey("Digit" + [d]) == [d]
  {
    assert ("Numpad" + [d])[..6] == "Numpad";
    assert ("Digit" + [d])[..5] == "Digit";
  }

  /** formatText: a candidate in the current case (ASCII case mapping). */
  function FormatText(c: string, mode: WritingMode): (r: string)
    ensures |r| == |c|
    ensures mode == Upper ==> forall i :: 0 <= i < |r| ==> r[i] == UpperChar(c[i])
    ensures mode == Lower ==> forall i :: 0 <= i < |r| ==> r[i] == LowerChar(c[i])
  {
    if mode == Upper then ToUpper(c) else ToLower(c)
  }

  /** Which branch of the handler a (normalised) key takes, in the handler's order of tests. */
  datatype PressKind = Ignored | ModeSwitch | Erase | Cycle | Append

  function Press(cfg: KeyboardConfig, s: DecoderState, key: string, timeLeft: int, now: int): PressKind
  {
    if timeLeft == 0 then Ignored
    else if key == cfg.modeSwitchKey then ModeSwitch
    else if IsDeleteKey(key) then Erase
    else if key !in cfg.phoneMap then Ignored
    else if s.lastKey == Some(key) && now - s.lastPressTime < CycleTimeoutMs then Cycle
    else Append
  }

  /**
   * handleKeyDown after key normalisation, as a state transition: the multitap decoder applied
   * to one canonical key.
   */
  function Decode(cfg: KeyboardConfig, s: DecoderState, key: string, timeLeft: int, now: int): (r: DecoderState)
    requires NonEmptyCandidates(cfg.phoneMap)
    // Time up, or an unmapped key: nothing changes.
    ensures Press(cfg, s, key, timeLeft, now) == Ignored ==> r == s
    // The mode key flips the case mode and nothing else.
    ensures Press(cfg, s, key, timeLeft, now) == ModeSwitch ==>
              r.writingMode != s.writingMode && r == s.(writingMode := r.writingMode)
    // A delete key removes exactly the last character and forgets the cycle; on empty text it does nothing.
    ensures Press(cfg, s, key, timeLeft, now) == Erase ==>
              if |s.text| == 0 then r == s
              else r.text + [s.text[|s.text| - 1]] == s.text && r.lastKey == None && r.pressCount == 0
                   && r.lastPressTime == now && r.writingMode == s.writingMode
    // A cycle press advances the candidate index modulo the number of candidates and rewrites the last character.
    ensures Press(cfg, s, key, timeLeft, now) == Cycle ==>
              var letters := cfg.phoneMap[key];
              && r.pressCount == (s.pressCount + 1) % |letters|
              && r.lastKey == s.lastKey && r.lastPressTime == now && r.writingMode == s.writingMode
              && (|s.text| > 0 ==> r.text == s.text[..|s.text| - 1] + FormatText(letters[r.pressCount], s.writingMode))
    // Any other mapped press appends the key's first candidate and restarts the cycle.
    ensures Press(cfg, s, key, timeLeft, now) == Append ==>
              && r.text == s.text + FormatText(cfg.phoneMap[key][0], s.writingMode)
              && r.pressCount == 0 && r.lastKey == Some(key) && r.lastPressTime == now
              && r.writingMode == s.writingMode
  {
    match Press(cfg, s, key, timeLeft, now)
    case Ignored => s
    case ModeSwitch => s.(writingMode := Toggle(s.writingMode))
    case Erase =>
      if |s.text| > 0 then s.(text := s.text[..|s.text| - 1], lastKey := None, pressCount := 0, lastPressTime := now)
      else s
    case Cycle =>
      var letters := cfg.phoneMap[key];
      var next := (s.pressCount + 1) % |letters|;
      s.(text := DropLast(s.text) + FormatText(letters[next], s.writingMode),
         pressCount := next, lastKey := Some(key), lastPressTime := now)
    case Append =>
      s.(text := s.text + FormatText(cfg.phoneMap[key][0], s.writingMode),
         pressCount := 0, lastKey := Some(key), lastPressTime := now)
  }

  /** Every transition of the decoder keeps its invariant. */
  lemma DecodeKeepsInv(cfg: KeyboardConfig, s: DecoderState, key: string, timeLeft: int, now: int)
    requires ConfigOk(cfg) && Inv(cfg, s)
    ensures Inv(cfg, Decode(cfg, s, key, timeLeft, now))
  {
    var r := Decode(cfg, s, key, timeLeft, now);
    match Press(cfg, s, key, timeLeft, now)
    case Ignored =>
    case ModeSwitch =>
    case Erase =>
    case Cycle =>
      var letters := cfg.phoneMap[key];
      assert |letters[r.pressCount]| == 1;
    case Append =>
      var letters := cfg.phoneMap[key];
      assert |letters[0]| == 1;
  }

  /** One key event as the handler sees it: the raw key, the session's time left, the clock. */
  datatype KeyEvent = KeyEvent(key: string, timeLeft: int, now: int)

  /** Events handled strictly in arrival order. */
  function Run(cfg: KeyboardConfig, s: DecoderState, events: seq<KeyEvent>): DecoderState
    requires NonEmptyCandidates(cfg.phoneMap)
    decreases |events|
  {
    if |events| == 0 then s
    else Run(cfg, Decode(cfg, s, NormalizeKey(events[0].key), events[0].timeLeft, events[0].now), events[1..])
  }

  /** The decoder invariant holds after any sequence of events from a state that has it. */
  lemma {:induction false} RunKeepsInv(cfg: KeyboardConfig, s: DecoderState, events: seq<KeyEvent>)
    requires ConfigOk(cfg) && Inv(cfg, s)
    ensures Inv(cfg, Run(cfg, s, events))
    decreases |events|
  {
    if |events| > 0 {
      DecodeKeepsInv(cfg, s, NormalizeKey(events[0].key), events[0].timeLeft, events[0].now);
      RunKeepsInv(cfg, Decode(cfg, s, NormalizeKey(events[0].key), events[0].timeLeft, events[0].now), events[1..]);
    }
  }

  /** Two presses of the mode key restore the original case mode and change nothing else. */
  lemma ModeSwitchTwice(cfg: KeyboardConfig, s: DecoderState, key: string, timeLeft: int, t1: int, t2: int)
    requires NonEmptyCandidates(cfg.phoneMap)
    requires timeLeft != 0 && key == cfg.modeSwitchKey
    ensures Decode(cfg, Decode(cfg, s, key, timeLeft, t1), key, timeLeft, t2) == s
  {
  }

  /** After a delete that removed a character, the next mapped press appends rather than cycles. */
  lemma DeleteThenPressAppends(cfg: KeyboardConfig, s: DecoderState, del: string, key: string, timeLeft: int, t1: int, t2: int)
    requires NonEmptyCandidates(cfg.phoneMap)
    requires timeLeft != 0 && |s.text| > 0
    requires Press(cfg, s, del, timeLeft, t1) == Erase
    requires var s1 := Decode(cfg, s, del, timeLeft, t1);
             Press(cfg, s1, key, timeLeft, t2) in {Cycle, Append}
    ensures var s1 := Decode(cfg, s, del, timeLeft, t1);
            var s2 := Decode(cfg, s1, key, timeLeft, t2);
            Press(cfg, s1, key, timeLeft, t2) == Append
            && s2.text == s1.text + FormatText(cfg.phoneMap[key][0], s.writingMode)
  {
  }

  /** `count` more presses of the same key, each `gap` milliseconds after the previous one. */
  function Repeat(cfg: KeyboardConfig, s: DecoderState, key: string, timeLeft: int, gap: int, count: nat): DecoderState
    requires NonEmptyCandidates(cfg.phoneMap)
    decreases count
  {
    if count == 0 then s
    else Repeat(cfg, Decode(cfg, s, key, timeLeft, s.lastPressTime + gap), key, timeLeft, gap, count - 1)
  }

  /** One press of the remembered key within the timeout is a cycle press that advances the index. */
  lemma CycleStep(cfg: KeyboardConfig, s: DecoderState, key: string, timeLeft: int, now: int)
    requires NonEmptyCandidates(cfg.phoneMap) && key in cfg.phoneMap
    requires timeLeft != 0 && now - s.lastPressTime < CycleTimeoutMs
    requires s.lastKey == Some(key)
    requires key != cfg.modeSwitchKey && !IsDeleteKey(key)
    ensures Press(cfg, s, key, timeLeft, now) == Cycle
    ensures var r := Decode(cfg, s, key, timeLeft, now);
            r.lastKey == Some(key) && r.writingMode == s.writingMode
            && r.pressCount == (s.pressCount + 1) % |cfg.phoneMap[key]|
  {
  }

  /**
   * Pressing the remembered key again and again, each press within the timeout, walks the
   * candidate list cyclically: after `count` presses the index has advanced by `count` modulo
   * the number of candidates, so after as many presses as there are candidates it is back.
   */
  lemma {:induction false} RepeatCyclesIndex(cfg: KeyboardConfig, s: DecoderState, key: string, timeLeft: int, gap: int, count: nat)
    requires NonEmptyCandidates(cfg.phoneMap) && key in cfg.phoneMap
    requires timeLeft != 0 && 0 <= gap < CycleTimeoutMs
    requires s.lastKey == Some(key) && s.pressCount < |cfg.phoneMap[key]|
    requires key != cfg.modeSwitchKey && !IsDeleteKey(key)
    ensures Repeat(cfg, s, key, timeLeft, gap, count).lastKey == Some(key)
    ensures Repeat(cfg, s, key, timeLeft, gap, count).writingMode == s.writingMode
    ensures Repeat(cfg, s, key, timeLeft, gap, count).pressCount == (s.pressCount + count) % |cfg.phoneMap[key]|
  {
    RepeatAdvances(cfg, s, key, timeLeft, gap, count);
    AdvanceIsMod(s.pressCount, count, |cfg.phoneMap[key]|);
  }

  /** The index after `count` presses, one step at a time. */
  lemma {:induction false} RepeatAdvances(cfg: KeyboardConfig, s: DecoderState, key: string, timeLeft: int, gap: int, count: nat)
    requires NonEmptyCandidates(cfg.phoneMap) && key in cfg.phoneMap
    requires timeLeft != 0 && 0 <= gap < CycleTimeoutMs
    requires s.lastKey == Some(key)
    requires key != cfg.modeSwitchKey && !IsDeleteKey(key)
    ensures Repeat(cfg, s, key, timeLeft, gap, count).lastKey == Some(key)
    ensures Repeat(cfg, s, key, timeLeft, gap, count).writingMode == s.writingMode
    ensures Repeat(cfg, s, key, timeLeft, gap, count).pressCount == Advance(s.pressCount, count, |cfg.phoneMap[key]|)
    decreases count
  {
    if count > 0 {
      var now := s.lastPressTime + gap;
      CycleStep(cfg, s, key, timeLeft, now);
      var s1 := Decode(cfg, s, key, timeLeft, now);
      RepeatAdvances(cfg, s1, key, timeLeft, gap, count - 1);
      assert Repeat(cfg, s, key, timeLeft, gap, count) == Repeat(cfg, s1, key, timeLeft, gap, count - 1);
    }
  }

  /** As many quick presses as the key has candidates bring the selection back where it was. */
  lemma RepeatFullCycle(cfg: KeyboardConfig, s: DecoderState, key: string, timeLeft: int, gap: int)
    requires NonEmptyCandidates(cfg.phoneMap) && key in cfg.phoneMap
    requires timeLeft != 0 && 0 <= gap < CycleTimeoutMs
    requires s.lastKey == Some(key) && s.pressCount < |cfg.phoneMap[key]|
    requires key != cfg.modeSwitchKey && !IsDeleteKey(key)
    ensures Repeat(cfg, s, key, timeLeft, gap, |cfg.phoneMap[key]|).pressCount == s.pressCount
  {
    var n := |cfg.phoneMap[key]|;
    RepeatCyclesIndex(cfg, s, key, timeLeft, gap, n);
    DivModUnique(s.pressCount + n, 1, s.pressCount, n);
  }

  /**
   * `r` arose from `s` by cycle presses of `key`: the remembered key and the case mode are
   * kept, the text keeps its length and every character but the last, and the last is the
   * key's current candidate in that case mode.
   */
  predicate CycledFrom(cfg: KeyboardConfig, s: DecoderState, r: DecoderState, key: string)
  {
    && Inv(cfg, r) && r.lastKey == Some(key) && r.writingMode == s.writingMode
    && |r.text| == |s.text| > 0 && r.text[..|s.text| - 1] == s.text[..|s.text| - 1]
    && r.text[|s.text| - 1..] == FormatText(cfg.phoneMap[key][r.pressCount], s.writingMode)
  }

  lemma CycledFromTrans(cfg: KeyboardConfig, s: DecoderState, s1: DecoderState, r: DecoderState, key: string)
    requires CycledFrom(cfg, s, s1, key) && CycledFrom(cfg, s1, r, key)
    ensures CycledFrom(cfg, s, r, key)
  {
  }

  /** One cycle press of the remembered key. */
  lemma CycleStepCycledFrom(cfg: KeyboardConfig, s: DecoderState, key: string, timeLeft: int, now: int)
    requires ConfigOk(cfg) && Inv(cfg, s)
    requires timeLeft != 0 && now - s.lastPressTime < CycleTimeoutMs
    requires s.lastKey == Some(key)
    requires key != cfg.modeSwitchKey && !IsDeleteKey(key)
    ensures CycledFrom(cfg, s, Decode(cfg, s, key, timeLeft, now), key)
  {
    CyclePressReplacesLast(cfg, s, key, timeLeft, now);
  }

  /**
   * The same presses never append: after at least one of them the text keeps its length and
   * every character but the last, and the last is the current candidate in the case mode of the
   * first press.
   */
  lemma {:induction false} RepeatCyclesText(cfg: KeyboardConfig, s: DecoderState, key: string, timeLeft: int, gap: int, count: nat)
    requires ConfigOk(cfg) && Inv(cfg, s)
    requires timeLeft != 0 && 0 <= gap < CycleTimeoutMs
    requires s.lastKey == Some(key)
    requires key != cfg.modeSwitchKey && !IsDeleteKey(key)
    ensures count > 0 ==> CycledFrom(cfg, s, Repeat(cfg, s, key, timeLeft, gap, count), key)
    decreases count
  {
    if count > 0 {
      var s1 := Decode(cfg, s, key, timeLeft, s.lastPressTime + gap);
      CycleStepCycledFrom(cfg, s, key, timeLeft, s.lastPressTime + gap);
      var r := Repeat(cfg, s1, key, timeLeft, gap, count - 1);
      assert Repeat(cfg, s, key, timeLeft, gap, count) == r;
      if count > 1 {
        RepeatCyclesText(cfg, s1, key, timeLeft, gap, count - 1);
        CycledFromTrans(cfg, s, s1, r, key);
      }
    }
  }

  /**
   * The central property of the decoder: under a well-formed configuration a cycle press never
   * appends. The text keeps its length and every character but the last, and the last becomes
   * the next candidate of the key in the current case.
   */
  lemma CyclePressReplacesLast(cfg: KeyboardConfig, s: DecoderState, key: string, timeLeft: int, now: int)
    requires ConfigOk(cfg) && Inv(cfg, s)
    requires Press(cfg, s, key, timeLeft, now) == Cycle
    ensures var r := Decode(cfg, s, key, timeLeft, now);
            var letters := cfg.phoneMap[key];
            && Inv(cfg, r)
            && r.lastKey == s.lastKey && r.writingMode == s.writingMode
            && r.pressCount == (s.pressCount + 1) % |letters|
            && r.pressCount < |letters|
            && |r.text| == |s.text|
            && r.text[..|s.text| - 1] == s.text[..|s.text| - 1]
            && r.text[|s.text| - 1..] == FormatText(letters[r.pressCount], s.writingMode)
  {
    var r := Decode(cfg, s, key, timeLeft, now);
    DecodeKeepsInv(cfg, s, key, timeLeft, now);
    var pre := s.text[..|s.text| - 1];
    assert r.text == pre + FormatText(cfg.phoneMap[key][r.pressCount], s.writingMode);
    assert |pre| == |s.text| - 1;
  }

  lemma MulStep(a: int, b: int, d: int)
    requires a < b && d > 0
    ensures a * d + d <= b * d
  {
    assert b * d - a * d == (b - a) * d;
    assert (b - a) * d >= d by {
      assert (b - a) * d - d == (b - a - 1) * d;
    }
  }

  /** The quotient and remainder of a division by n > 0 are the unique such pair. */
  lemma DivModUnique(x: int, q: int, r: int, n: int)
    requires n > 0 && 0 <= r < n && x == q * n + r
    ensures x / n == q && x % n == r
  {
    var q', r' := x / n, x % n;
    assert x == q' * n + r';
    if q' > q {
      MulStep(q, q', n);
    } else if q' < q {
      MulStep(q', q, n);
    }
  }

  /** The index reached from `p` by `k` cyclic steps through `n` candidates. */
  function Advance(p: nat, k: nat, n: nat): nat
    requires n > 0
    decreases k
  {
    if k == 0 then p else Advance((p + 1) % n, k - 1, n)
  }

  /** Stepping cyclically `k` times is adding `k` modulo `n`. */
  lemma {:induction false} AdvanceIsMod(p: nat, k: nat, n: nat)
    requires n > 0 && p < n
    ensures Advance(p, k, n) == (p + k) % n
    decreases k
  {
    if k == 0 {
      DivModUnique(p, 0, p, n);
    } else {
      AdvanceIsMod((p + 1) % n, k - 1, n);
      ModSum(p + 1, k - 1, n);
    }
  }

  lemma ModSum(a: nat, b: nat, n: nat)
    requires n > 0
    ensures (a % n + b) % n == (a + b) % n
  {
    var q := a / n;
    var x := a % n + b;
    var q', r' := x / n, x % n;
    assert a == q * n + a % n;
    assert x == q' * n + r';
    assert a + b == (q + q') * n + r' by {
      assert (q + q') * n == q * n + q' * n;
    }
    DivModUnique(a + b, q + q', r', n);
  }

  /** The per-player hook: its state cells as fields, its keyboard configuration fixed. */
  class TypingGame {
    const config: KeyboardConfig
    var text: string
    var lastKey: Option<string>
    var pressCount: nat
    var lastPressTime: int
    var writingMode: WritingMode
    var startTime: Option<int>

    function State(): DecoderState
      reads this
    {
      DecoderState(text, lastKey, pressCount, lastPressTime, writingMode)
    }

    ghost predicate Valid()
      reads this
    {
      ConfigOk(config) && Inv(config, State())
    }

    constructor (config: KeyboardConfig)
      requires ConfigOk(config)
      ensures Valid() && this.config == config
      ensures State() == InitialState && startTime == None
    {
      this.config := config;
      text, lastKey, pressCount, lastPressTime, writingMode := "", None, 0, 0, Lower;
      startTime := None;
    }

    /** handleKeyDown: one key event, at time `now`, while the session shows `timeLeft`. */
    method HandleKeyDown(rawKey: string, timeLeft: int, now: int)
      requires Valid()
      modifies this
      ensures State() == Decode(config, old(State()), NormalizeKey(rawKey), timeLeft, now)
      ensures Valid()
      ensures startTime == old(startTime)
    {
      DecodeKeepsInv(config, State(), NormalizeKey(rawKey), timeLeft, now);
      var key := rawKey;
      if HasPrefix(key, "Numpad") || HasPrefix(key, "Digit") {
        key := key[|key| - 1..];
      }
      if timeLeft == 0 {
        return;
      }
      if key == config.modeSwitchKey {
        writingMode := if writingMode == Lower then Upper else Lower;
        return;
      }
      if key == "Backspace" || key == "Delete" {
        if |text| > 0 {
          text := text[..|text| - 1];
          lastKey := None;
          pressCount := 0;
          lastPressTime := now;
        }
        return;
      }
      if key !in config.phoneMap {
        return;
      }
      if lastKey == Some(key) && now - lastPressTime < CycleTimeoutMs {
        var letters := config.phoneMap[key];
        var next := (pressCount + 1) % |letters|;
        text := DropLast(text) + FormatText(letters[next], writingMode);
        pressCount := next;
      } else {
        pressCount := 0;
        text := text + FormatText(config.phoneMap[key][0], writingMode);
      }
      lastKey := Some(key);
      lastPressTime := now;
    }

    /** reset: every state cell back to its initial value, the start time forgotten. */
    method Reset()
      requires Valid()
      modifies this
      ensures Valid()
      ensures State() == InitialState && startTime == None
    {
      text, lastKey, pressCount, lastPressTime, writingMode := "", None, 0, 0, Lower;
      startTime := None;
    }

    /** The start-time effect, run when the session's active flag changes: record the first start. */
    method OnTestActiveChanged(isTestActive: bool, now: int)
      requires Valid()
      modifies this
      ensures Valid() && State() == old(State())
      ensures startTime == if !Scoring.StartTimeSet(old(startTime)) && isTestActive then Some(now) else old(startTime)
    {
      if !Scoring.StartTimeSet(startTime) && isTestActive {
        startTime := Some(now);
      }
    }
  }
}
