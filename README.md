# Multitap typing game — a verified model

The game is a typing race on an old-style phone keypad. Each key carries a list of characters.
- Pressing a key once types the first character in its list.
- Pressing the same key again within 1000 ms replaces that character with the next one in the list, wrapping around at the end.
- Any other press commits the character and starts a new one.

The model covers five parts of the game:

- **Single-player text box** (`TypingBox.dfy`, `TypingBox.tsx`): the decoder without case mode.
- **Per-player typing hook** (`TypingGame.dfy` and `Scoring.dfy`, `hooks/useTypingGame.ts`):
  - key normalisation;
  - the decoder with its case mode and delete keys;
  - reset and the start-time effect;
  - the positional scoring, accuracy and words per minute.
- **Two-player session** (`TwoPlayerGame.dfy`, `components/TwoPlayerGame.tsx`):
  - the two keymaps and the 60-second countdown;
  - ending, starting and restarting a game;
  - routing each key to the player whose keymap has it;
  - the winner.
- **Device detection** (`DeviceDetection.dfy`, `hooks/useDeviceDetection.ts`):
  - keyboard location and user-agent category;
  - the device id, the record of detected devices, and the reducer that assigns devices to players, preferring numeric keypads;
  - the lookups and the reset.
- **Player panel** (`PlayerView.dfy`, `components/Player.tsx`):
  - the class of each target character and the current-word search;
  - the per-character word-membership scan, with its off-by-one;
  - the current-character mark and the timer display.

Each state-changing handler works the same way:
- A pure function specifies one step of it, for example `Decode`, `BoxKeyDown`, `TimerStep` or `Assign`.
- A class holds the component's state cells as fields.
- The class method's `ensures` ties the new state to that function of the old state.
- Lemmas then state what the source promises about the function: invariants kept, a cycle press replacing and never appending, round trips, and runs of events.

The loops in the source are methods with loop invariants, proved against specification functions:
- the two counting loops of the scoring;
- the two word scans of the player panel.

Time is an integer number of milliseconds. `Math.round(a / b)` with `b > 0` is computed exactly as `(2a + b) / (2b)` in integer arithmetic. The clock, the random sentence choice and the browser probes are parameters.

Behaviour of the code a reader might not expect, modelled as written:
- **Starting a game.** A game starts on any key in either keymap. That includes Backspace, Delete and Player 2's `"space"` entry, not only character presses. The mode keys `+` and `/` do not start a game.
- **Restarting.** `startNewGame` does not reset the players' decoders or their start times. It also starts the clock at once, rather than returning to an idle state.
- **Device id.** The id also contains the platform string, not only the category, touch flags and location.
- **Device assignment.** It is not frozen once both slots are filled. A numeric keypad displaces a player 1 device that is not a keypad, and a second keypad displaces a player 2 device that is not a keypad.
- **Late key events.** The decoder ignores keys only when `timeLeft` is 0, not when no game is running. `onTestEnd` is accepted but never called.

## Model

| member | source | states |
|---|---|---|
| Strings.ToUpper | src/hooks/useTypingGame.ts:86 | upper-casing keeps the length, maps every character with the ASCII upper-case map and leaves no lower-case letter |
| Strings.ToLower | src/hooks/useDeviceDetection.ts:43-51 | lower-casing (the case-insensitive tests) keeps the length, maps every character and leaves no upper-case letter |
| Strings.ContainsAt | src/hooks/useDeviceDetection.ts:43-51 | the pattern test holds iff the pattern occurs at some position of the string |
| Strings.ContainsLonger | src/hooks/useDeviceDetection.ts:47 | a string containing a pattern contains every prefix of that pattern |
| Strings.DropLast | src/TypingBox.tsx:30 | `slice(0, -1)`: empty stays empty, otherwise the result followed by the last character is the original |
| Strings.Split | src/components/Player.tsx:38 | `split(' ')` yields at least one word and no word contains a space |
| Strings.JoinSplit | src/components/Player.tsx:38 | joining the split words with single spaces gives back the sentence |
| Scoring.CountMatches | src/hooks/useTypingGame.ts:49-61 | the number of valid characters is at most the typed length and at most the target length |
| Scoring.CountMatchesIsMatchPositions | src/hooks/useTypingGame.ts:54-58 | the count is exactly the number of positions where typed and target agree |
| Scoring.CountMatchesAppend | src/hooks/useTypingGame.ts:54-58 | one more typed character adds one iff it matches the target at its position, whatever came before |
| Scoring.CountMatchesBeyondTarget | src/hooks/useTypingGame.ts:55 | typed characters beyond the target's length never count |
| Scoring.Round | src/hooks/useTypingGame.ts:76 | the rounded quotient is the integer nearest num/den, halves rounded up |
| Scoring.RoundBounds | src/hooks/useTypingGame.ts:76 | rounding a quotient between lo and hi stays between lo and hi |
| Scoring.Accuracy | src/hooks/useTypingGame.ts:63-77 | accuracy is 100 for empty text, otherwise the rounded percentage of matching typed characters; always in [0, 100]; 100 when every typed character matches |
| Scoring.EffectiveElapsedMs | src/hooks/useTypingGame.ts:81 | the elapsed time is at least one second; exactly one second when not started (no start time, or a start time of 0) or started at most a second ago; the real elapsed time otherwise |
| Scoring.Wpm | src/hooks/useTypingGame.ts:79-83 | WPM is `Math.round(12000 · valid / ms)` over the effective elapsed milliseconds, stated as a bracket on the exact quotient; non-negative, 0 with no valid characters, at most 12 per valid character, exactly 12 per valid character within the first second |
| Scoring.GetValidCharCount | src/hooks/useTypingGame.ts:49-61 | the counting loop returns exactly the positional match count |
| Scoring.CalculateAccuracy | src/hooks/useTypingGame.ts:63-77 | its own counting loop gives the same count, so the result is Accuracy, in [0, 100] |
| Scoring.CalculateWpm | src/hooks/useTypingGame.ts:79-83 | the result is Wpm of the valid count, between 0 and 12 per valid character |
| Scoring.AccuracyExample | src/hooks/useTypingGame.ts:63-77 | "abx" against "abc" has two valid characters and accuracy 67 |
| Scoring.NonPrefixScoringExample | src/hooks/useTypingGame.ts:54-58 | a first-character typo does not stop the later two matches from counting |
| Scoring.WpmExample | src/hooks/useTypingGame.ts:79-83 | ten valid characters ten seconds after the start are 12 WPM |
| TypingGame.Toggle | src/hooks/useTypingGame.ts:102 | the mode switch always changes the case mode |
| TypingGame.NormalizeKey | src/hooks/useTypingGame.ts:90-93 | a key code with a "Numpad" or "Digit" prefix becomes its last character, any other key is kept; the result never carries either prefix and is never longer than the key |
| TypingGame.NormalizeKeyIdempotent | src/hooks/useTypingGame.ts:90-93 | normalising an already normalised key changes nothing |
| TypingGame.NormalizeKeyPadAndRow | src/hooks/useTypingGame.ts:90-93 | "Numpad" or "Digit" followed by a character both normalise to that character |
| TypingGame.FormatText | src/hooks/useTypingGame.ts:85-87 | a candidate keeps its length and is upper-cased in ABC mode, lower-cased in abc mode |
| TypingGame.Decode | src/hooks/useTypingGame.ts:95-140 | per branch: time up or unmapped key changes nothing; the mode key flips the mode only; delete removes exactly the last character and forgets the cycle, or does nothing on empty text; a cycle press advances the index mod n and rewrites the last character; any other mapped press appends the formatted first candidate with index 0 |
| TypingGame.DecodeKeepsInv | src/hooks/useTypingGame.ts:125-137 | every step keeps the invariant: a remembered key is mapped, its index is below its candidate count, and the text is non-empty |
| TypingGame.RunKeepsInv | src/hooks/useTypingGame.ts:89-141 | the invariant holds after any sequence of events handled in order |
| TypingGame.ModeSwitchTwice | src/hooks/useTypingGame.ts:100-104 | two mode-key presses restore the original state exactly |
| TypingGame.DeleteThenPressAppends | src/hooks/useTypingGame.ts:106-137 | after a delete that removed a character, the next mapped press appends its first candidate instead of cycling |
| TypingGame.CycleStep | src/hooks/useTypingGame.ts:125-132 | pressing the remembered key within 1000 ms is a cycle press that advances the index mod n and keeps key and mode |
| TypingGame.RepeatAdvances | src/hooks/useTypingGame.ts:125-132 | after `count` quick presses the index is `count` cyclic steps further |
| TypingGame.RepeatCyclesIndex | src/hooks/useTypingGame.ts:125-132 | after `count` quick presses the index is (start + count) mod n |
| TypingGame.RepeatFullCycle | src/hooks/useTypingGame.ts:125-132 | n quick presses of a key with n candidates bring the selection back to where it was |
| TypingGame.RepeatCyclesText | src/hooks/useTypingGame.ts:125-132 | any number of quick presses keeps the text length and all but the last character, the last being the current candidate |
| TypingGame.CyclePressReplacesLast | src/hooks/useTypingGame.ts:125-132 | a cycle press never appends: same length, same prefix, last character the next formatted candidate, index in range |
| TypingGame.AdvanceIsMod | src/hooks/useTypingGame.ts:131 | k cyclic steps of `(prev + 1) % n` from an index below n land on (p + k) mod n |
| TypingGame.TypingGame.constructor | src/hooks/useTypingGame.ts:36-41 | the state cells start empty: no text, no key, index 0, time 0, abc mode, no start time |
| TypingGame.TypingGame.HandleKeyDown | src/hooks/useTypingGame.ts:89-141 | the handler's field updates are exactly Decode of the normalised key, and keep the invariant and the start time |
| TypingGame.TypingGame.Reset | src/hooks/useTypingGame.ts:143-150 | reset restores every state cell to its initial value and forgets the start time |
| TypingGame.TypingGame.OnTestActiveChanged | src/hooks/useTypingGame.ts:43-47 | the start time is recorded when the game becomes active and no (truthy) start time is set, and is otherwise unchanged |
| TypingBox.PhoneMapWellFormed | src/TypingBox.tsx:6-17 | the box's keymap has non-empty lists of one-character candidates and no Backspace entry |
| TypingBox.BoxKeyDown | src/TypingBox.tsx:25-57 | Backspace drops the last character (empty stays empty) and always forgets the cycle; an unmapped key changes nothing; a cycle press advances the index mod n and rewrites the last character; any other mapped press appends the first candidate |
| TypingBox.BoxKeyDownKeepsInv | src/TypingBox.tsx:43-54 | every step keeps the index below the remembered key's candidate count |
| TypingBox.BoxCycleReplacesLast | src/TypingBox.tsx:43-49 | a cycle press keeps the length and prefix and sets the last character to the next candidate |
| TypingBox.BackspaceThenPressAppends | src/TypingBox.tsx:28-54 | after Backspace the next mapped press appends, whatever the timing |
| TypingBox.TypingBox.constructor | src/TypingBox.tsx:19-23 | the box starts empty with its fixed keymap |
| TypingBox.TypingBox.HandleKeyDown | src/TypingBox.tsx:25-57 | the handler's field updates are exactly BoxKeyDown and keep the invariant |
| TypingBox.PhoneMapExampleKeys | src/TypingBox.tsx:14-15 | keys 2 and 3 carry t-u-v and w-x-y-z |
| TypingBox.ExampleSteps | src/TypingBox.tsx:43-56 | each step of the worked example under any keymap with those two keys |
| TypingBox.WorkedExample | src/TypingBox.tsx:43-56 | four presses of 2 within a second show t, u, v, t; then 3 gives "tw" |
| TwoPlayerGame.Player1KeysWellFormed | src/components/TwoPlayerGame.tsx:7-22 | player 1's keymap has non-empty lists, one-character candidates except under Backspace |
| TwoPlayerGame.Player2KeysWellFormed | src/components/TwoPlayerGame.tsx:24-39 | player 2's keymap has non-empty lists, one-character candidates except under Delete |
| TwoPlayerGame.Player1RoutedShape | src/components/TwoPlayerGame.tsx:107 | keys routed to player 1 are single digits, '+', or Backspace |
| TwoPlayerGame.Player2RoutedShape | src/components/TwoPlayerGame.tsx:111 | keys routed to player 2 are single lower-case letters, ',', '.', '/', "space" or Delete |
| TwoPlayerGame.RoutingDisjoint | src/components/TwoPlayerGame.tsx:104-114 | no key is routed to both players |
| TwoPlayerGame.EraseAndModeKeysArePrivate | src/components/TwoPlayerGame.tsx:106-113 | Backspace and '+' reach only player 1, Delete and '/' only player 2 |
| TwoPlayerGame.ModeKeysDoNotStart | src/components/TwoPlayerGame.tsx:78-80 | the mode keys never start a game |
| TwoPlayerGame.InitialSessionInv | src/components/TwoPlayerGame.tsx:42-45 | the mounted session satisfies the session invariant |
| TwoPlayerGame.TimerStep | src/components/TwoPlayerGame.tsx:51-62 | a running tick takes exactly one second off; at zero the game stops and is completed; otherwise nothing changes; the invariant is kept |
| TwoPlayerGame.EndTest | src/components/TwoPlayerGame.tsx:64-67 | ending stops the game and marks it completed, keeping sentence and clock and the invariant |
| TwoPlayerGame.NewGame | src/components/TwoPlayerGame.tsx:69-74 | a new game has the new sentence, 60 seconds, is running and not completed |
| TwoPlayerGame.StartOnKeyStep | src/components/TwoPlayerGame.tsx:76-86 | a key changes the session only when no game is running or completed and either keymap has it, and then starts a new game |
| TwoPlayerGame.CountdownEnds | src/components/TwoPlayerGame.tsx:51-62 | a running game with n seconds left is completed at zero after exactly n ticks |
| TwoPlayerGame.NewGameLastsAMinute | src/components/TwoPlayerGame.tsx:51-74 | a new game ends after exactly 60 ticks |
| TwoPlayerGame.CompletedIsStable | src/components/TwoPlayerGame.tsx:51-86 | a completed game is unchanged by ticks and by any key; only startNewGame leaves it |
| TwoPlayerGame.DetermineWinner | src/components/TwoPlayerGame.tsx:120-124 | no result before completion; a tie iff the WPMs are equal; otherwise the player with the higher WPM |
| TwoPlayerGame.DetermineWinnerSymmetric | src/components/TwoPlayerGame.tsx:120-124 | swapping the speeds swaps the winner and keeps a tie |
| TwoPlayerGame.TwoPlayerGame.constructor | src/components/TwoPlayerGame.tsx:41-49 | the session starts idle with the full minute and two fresh, empty decoders |
| TwoPlayerGame.TwoPlayerGame.Tick | src/components/TwoPlayerGame.tsx:51-62 | the interval callback and timer effect are exactly TimerStep |
| TwoPlayerGame.TwoPlayerGame.HandleTestEnd | src/components/TwoPlayerGame.tsx:64-67 | handleTestEnd is exactly EndTest |
| TwoPlayerGame.TwoPlayerGame.StartNewGame | src/components/TwoPlayerGame.tsx:69-74 | the session becomes NewGame; the players' text and decoder state are untouched; a start time is recorded exactly when the game was not already running and that start time was unset, and otherwise stays |
| TwoPlayerGame.TwoPlayerGame.StartOnKey | src/components/TwoPlayerGame.tsx:76-86 | the start-on-key handler is exactly StartOnKeyStep and leaves the decoders alone; when it starts a game each unset start time becomes now, and otherwise every start time stays |
| TwoPlayerGame.TwoPlayerGame.RouteKey | src/components/TwoPlayerGame.tsx:104-118 | each player's decoder takes one Decode step iff the key is routed to that player, otherwise is unchanged |
| TwoPlayerGame.TwoPlayerGame.Winner | src/components/TwoPlayerGame.tsx:120-124 | the result is DetermineWinner of the two players' WPM at that time |
| DeviceDetection.LocationOf | src/hooks/useDeviceDetection.ts:53-60 | 3 is numpad, 1 left, 2 right, anything else standard |
| DeviceDetection.IPadOSImpliesIPad | src/hooks/useDeviceDetection.ts:47 | the iPadOS alternative never matches anything the iPad test does not |
| DeviceDetection.Classify | src/hooks/useDeviceDetection.ts:42-51 | the first-match category tests, each of the four categories characterised without the test order by which words the user agent mentions: Android decides first, then iPhone, then iPad, then the desktop systems |
| DeviceDetection.DeviceId | src/hooks/useDeviceDetection.ts:63 | the id begins with the category name and ends with the location name |
| DeviceDetection.LocationSeparatesIds | src/hooks/useDeviceDetection.ts:63 | devices at different locations never share an id |
| DeviceDetection.CategorySeparatesIds | src/hooks/useDeviceDetection.ts:63 | devices of different categories never share an id |
| DeviceDetection.DetectDevice | src/hooks/useDeviceDetection.ts:29-74 | the detected device has the classified category, the mapped location, the given probes and clock, and its id is composed from them |
| DeviceDetection.DetectedLocationsSeparate | src/hooks/useDeviceDetection.ts:53-63 | key events at different locations are attributed to different device ids |
| DeviceDetection.Record | src/hooks/useDeviceDetection.ts:105-111 | the detected map gains the device's id and keeps every earlier record; a new id maps to the device |
| DeviceDetection.Assign | src/hooks/useDeviceDetection.ts:114-137 | a keypad takes player 1 unless player 1 holds one, which is never replaced; player 2 changes only to take a different device, a keypad only as a second keypad; other devices only fill free slots |
| DeviceDetection.AssignKeepsInv | src/hooks/useDeviceDetection.ts:114-137 | the reducer keeps: player 2 only after player 1, a player 2 keypad only with a player 1 keypad, different ids in the two slots |
| DeviceDetection.TwoKeypadsDisplaceKeyboard | src/hooks/useDeviceDetection.ts:117-126 | a keyboard and then two keypads end with the two keypads assigned |
| DeviceDetection.IsDeviceAssignedToPlayer | src/hooks/useDeviceDetection.ts:147-150 | under the assignment invariant, a device assigned to one player is not assigned to the other, and a device assigned to player 2 implies player 1 is assigned |
| DeviceDetection.GetPlayerForDevice | src/hooks/useDeviceDetection.ts:152-156 | player 1 iff its slot has the id; player 2 iff only player 2's does; none otherwise |
| DeviceDetection.LookupsAgree | src/hooks/useDeviceDetection.ts:147-156 | under the invariant, getPlayerForDevice returns k iff isDeviceAssignedToPlayer(id, k) |
| DeviceDetection.DeviceTracker.constructor | src/hooks/useDeviceDetection.ts:77-81 | nothing detected and nothing assigned |
| DeviceDetection.DeviceTracker.HandleKeyDown | src/hooks/useDeviceDetection.ts:83-138 | the handler records the detected device and applies Assign to the assignments, keeping the invariants |
| DeviceDetection.DeviceTracker.AssignDevice | src/hooks/useDeviceDetection.ts:114-137 | the reducer's field update is exactly Assign and keeps the invariant |
| DeviceDetection.DeviceTracker.ResetDeviceAssignments | src/hooks/useDeviceDetection.ts:158-161 | both assignments and the detected map are emptied |
| PlayerView.FindCurrentWord | src/components/Player.tsx:41-50 | the current word is the first whose running total including itself exceeds the typed length, and word 0 if none does |
| PlayerView.IsInCurrentWord | src/components/Player.tsx:52-63 | a character is marked iff the first scanned range containing it is the current word's |
| PlayerView.BeforeMonotone | src/components/Player.tsx:55-62 | the scan's running totals never decrease |
| PlayerView.ScanRangesDisjoint | src/components/Player.tsx:55-62 | the scanned ranges of two words never overlap |
| PlayerView.InCurrentWordIsRange | src/components/Player.tsx:52-63 | membership is exactly the current word's scanned range |
| PlayerView.BeforeIsLengthsAndSpaces | src/components/Player.tsx:55-62 | the range of word i >= 1 starts at the earlier words' lengths plus i - 1 |
| PlayerView.WordsInJoin | src/components/Player.tsx:38 | word i of the split sentence sits at its true start, with a space just before it after the first word |
| PlayerView.ScanRangeOffByOne | src/components/Player.tsx:52-63 | for every word after the first, the scanned range starts on the space before the word and misses its last letter |
| PlayerView.Status | src/components/Player.tsx:69-73 | correct iff typed and equal, incorrect iff typed and different, remaining iff not yet typed |
| PlayerView.CorrectIsValidCount | src/components/Player.tsx:69-73 | the number of characters shown correct equals the valid-character count of the scoring |
| PlayerView.IsCurrentChar | src/components/Player.tsx:75-78 | a space is never marked; a typed mismatch always is; position text.length is marked iff nothing is typed or the last typed character matched; later positions never |
| PlayerView.CurrentCharMarks | src/components/Player.tsx:75-78 | a marked typed position is a mistake and the only marked untyped position is the next one |
| PlayerView.TimerDisplay | src/components/Player.tsx:26 | the time left while a game runs, the full minute otherwise, so always within 1..60 when the time left is; its partner TimerDisplayInSession shows that every session gives 1..60 |
| PlayerView.TimerDisplayInSession | src/components/Player.tsx:26 | in any session the timer shows 1 to 60, never 0, and 60 once the game is completed |
| PlayerView.TimerJumpsBackAtTimeOut | src/components/Player.tsx:26 | at time-out the display goes from 1 straight back to 60 |
| PlayerView.TimerLow | src/components/Player.tsx:25 | low iff running with at most ten seconds left |

## Left out

- Floating point: accuracy and WPM use exact integer arithmetic over whole milliseconds; the rounding agrees with `Math.round` on exact quotients.
- String length and indexing: strings are sequences of Unicode characters, while the source's `length`, `slice(0, -1)`, `split('')` and indexing count UTF-16 code units; the two differ for sentences with characters outside the Basic Multilingual Plane.
- Unicode case mapping: `toUpperCase`, `toLowerCase` and the `/i` regular expressions are modelled on ASCII letters only.
- Clock, randomness and browser probes: `Date.now()`, the random sentence choice (the sentence list is not part of this model), the user agent, platform, touch support and `firesTouchEvents` are parameters.
- React semantics: state updates are sequential field writes; batching, stale closures between renders and effect scheduling are not modelled, and effects are methods the caller invokes (the timer effect runs inside Tick, the start-time effect in OnTestActiveChanged).
- Listener registration and `setInterval`/`clearInterval`: event plumbing, replaced by calling the handlers and Tick in sequence.
- JavaScript object prototype names (a key spelled like an inherited property such as `constructor`): keymap membership is plain map membership.
- Player 2's `"space"` entry: browsers report the space bar as `" "`, so that entry is never routed from a real key; the model routes the string it is given.
- The `detectedDevices` array view and its Map insertion order: only the id-to-device map is modelled.
- `useLogKeydown` and the `console.log` payloads: logging only.
- App.tsx, GameLayout.tsx, ModeSelect.tsx, JSX and CSS: presentation; only the computed classes and indices of the player panel are modelled.
- TypingGame.TypingGame.HandleKeyDown: `preventDefault` calls are not modelled.
- TypingBox.BoxKeyDown: requires non-empty candidate lists; the source would index `undefined` on an empty list.
- DeviceDetection.Classify: the case-insensitive substring tests are exact matches against the lower-cased user agent, without regular-expression metacharacters (none occur in the patterns).
