# Spot the Difference: a verified model of the game core

This project models the logic of a browser game for children.
The player spots the difference between the two faces of a flashcard, or
picks the one card that changed in a set. The cards are generated on demand
by a generative-image backend. The model covers:

- **the card prefetch buffer** (`services/cardBuffer.ts`): one slot per mode
  that holds a generation task ready ahead of the player, the refill timers a
  fetch schedules, the failure handler of a refill, and `clearBuffer`. It is a
  class over an explicit queue of pending timers. Tasks are opaque ids, and
  the environment chooses which timer fires and which task settles.
- **the multi-set assembler** (`generateMultiCardsImpl`): the target first,
  then `max(1, count-1)` distractors one at a time with one manual retry
  each, paced by 500 ms and 1000 ms pauses. The assembler then runs an
  in-place Fisher–Yates shuffle over an array. The random draws are an input.
- **the retry wrapper and the card builders** (`services/geminiService.ts`):
  `withRetry` with substring-classified exponential backoff, `extractBase64`,
  `generateCardPair` and `generateSingleCard`. Every backend call is an
  oracle `Outcome`: an answer, or the message of the error it threw.
- **the game rules inside the components**: scoring, streak, rest breaks and
  the background rotation of `App.tsx`; the click regions and the error limit
  of single-card mode; the card count, target selection, phase machine,
  rotation rule and reveal animation of multi-card mode; the settings
  buttons of the main menu.

Files: `types.dfy` (shared datatypes), `gemini_service.dfy`,
`card_buffer.dfy`, `app.dfy`, `single_card_mode.dfy`, `multi_card_mode.dfy`
and `main_menu.dfy`. There is one module per source file.

The model follows the code, including these behaviours of it:

- **Retried errors.** The comment beside the retry test
  (services/geminiService.ts:21) names server overload "503/500". The test
  itself matches only messages containing `429`, `quota` or `503`, so a `500`
  is rethrown at once (`GeminiService.InternalServerErrorIsFatal`).
- **Overlapping tasks of one mode.** Each slot holds a single task, but the
  code can have more than one task of the same mode running:
  - a cold fetch's task is never stored, so the refill it schedules starts a
    second task of the same mode while the first is still running
    (`CardBuffer.ColdFetchThenRefillOverlap`);
  - a late failure of a served refill task empties a slot that already holds
    a newer task (`CardBuffer.LateFailureWipesNewerTask`).
- **Clearing the buffer.** `clearBuffer` does not cancel refill timers that
  are already scheduled, so the slot can fill again right after a return to
  the menu, with the request the timer was scheduled with. After the player
  changes the difficulty and starts again, the next game's second fetch is
  served a set generated for the previous game's difficulty and count, so a
  fresh start with the new settings (App.tsx:99-104) is not guaranteed
  (`CardBuffer.ClearKeepsScheduledRefills`).
- **Empty difference description.** Nothing checks that the scenario's
  `diffDescription` is non-empty. When it is empty, `findIndex` finds no card,
  the target index falls back to 0, and that card may be a distractor
  (`MultiCardMode.UndescribedTargetMissed`).

Multi-card mode has a timing quirk, reproduced by
`MultiCardMode.StaleCoverTimerCutsMemorize`:

- The component mounts with the timer on and `timeLeft` equal to 0.
- Its countdown effect therefore covers the cards before they have loaded.
- If the cards arrive within two seconds (for example from a buffered set),
  the two-second cover timer this starts is still pending when memorizing
  begins. When it fires, guessing starts while memorize time is still left.
- With a slower load the timer fires while the cards are still loading. The
  load then resets the phase to memorize, and the countdown runs its full length.

## Model

| member | source | states |
|---|---|---|
| GeminiService.Includes | services/geminiService.ts:23 | `msg.includes(sub)`: a match needs `sub` to fit in `msg`, and the empty string is always included. |
| GeminiService.RetryWorthy | services/geminiService.ts:22-23 | A message is retry-worthy iff `429`, `quota` or `503` occurs in it at some index. |
| GeminiService.IncludesIff | services/geminiService.ts:23 | The scan used for `msg.includes(sub)` holds exactly when `sub` occurs at some index of `msg` (both directions). |
| GeminiService.NotIncludesWithoutFirstChar | services/geminiService.ts:23 | A message that lacks the first character of a marker does not include the marker. |
| GeminiService.InternalServerErrorIsFatal | services/geminiService.ts:21-23 | A `"500"` error is not retry-worthy: only 429, quota and 503 are matched, whatever the comment says. |
| GeminiService.FatalWithoutMarkerStarts | services/geminiService.ts:23 | A message without any of the characters `4`, `q` or `5` is never retried. |
| GeminiService.WithRetry | services/geminiService.ts:16-31 | At most `retries` waits, so at most `retries + 1` invocations. The result is the outcome of the invocation after the last wait. The first wait is `delay` and each later wait doubles the one before. Every retried failure was retry-worthy. A failing result means the budget ran out or the error was not retry-worthy. |
| GeminiService.DelayIsGeometric | services/geminiService.ts:25-26 | The k-th wait is `delay * 2^k`. |
| GeminiService.RetryBound | services/geminiService.ts:16-31 | Against a stub rate-limited `k` times and then successful, the wrapper succeeds iff `k <= retries`. It returns the stub's value and waits `min(k, retries)` times. |
| GeminiService.DefaultBackoff | services/geminiService.ts:16-29 | With defaults (3, 2000), an always rate-limited call waits 2000, 4000, 8000 ms and rethrows the last error unchanged. |
| GeminiService.FatalErrorFailsFast | services/geminiService.ts:20-29 | A first error that is not retry-worthy is rethrown unchanged with no wait. |
| GeminiService.Usable | services/geminiService.ts:93-94 | The truthiness test on an extracted payload: it fails exactly for `null` and the empty string. |
| GeminiService.FirstInlineData | services/geminiService.ts:87-90 | Returns nothing iff no part has inline data. Otherwise it returns the data of the first part that has some. |
| GeminiService.ExtractBase64 | services/geminiService.ts:85-91 | Returns null when the parts path is missing, else the first-match search over the parts. |
| GeminiService.PairAttempt | services/geminiService.ts:75-118 | See the bullets below the table. |
| GeminiService.GenerateCardPair | services/geminiService.ts:74-119 | Makes at most 3 retries, and the result is the attempt after the last wait. Every earlier attempt failed. |
| GeminiService.BlockedPairFailsFast | services/geminiService.ts:93-94 | When the front image is always blocked, the pair builder fails on its first attempt with no wait. |
| GeminiService.BlockedFrontIsFatal | services/geminiService.ts:94 | The front-image error message is not retry-worthy. |
| GeminiService.RateLimitedFrontIsRetried | services/geminiService.ts:18-26 | A `429` thrown by the front-image call reaches the retry test unchanged, so the whole pair is tried again after 2000 ms and the second attempt's card is returned. |
| GeminiService.ScenarioCarriedIntoCard | services/geminiService.ts:110-117 | For any scenario, a successful attempt keeps its description, location and prompt in the card. |
| GeminiService.SingleAttempt | services/geminiService.ts:131-165 | Sends the one prompt, pool subject plus style suffix. Succeeds iff a non-empty payload came back; the card is then a distractor with the drawn subject and one shared data URL. An error thrown by the image call is passed on unchanged; a missing or empty payload gives "Blocked or failed Single Image". |
| GeminiService.GenerateSingleCard | services/geminiService.ts:130-166 | Makes at most 3 retries, and every card it returns is a distractor: identical faces, empty description, center, one of the 12 pool prompts. |
| CardBuffer.HitDelay | services/cardBuffer.ts:17 | The refill after a hit waits 3000 ms in single mode and 4000 ms in multi mode, 2000 ms sooner than after a miss. |
| CardBuffer.MissDelay | services/cardBuffer.ts:22 | The refill after a miss waits 5000 ms in single mode and 6000 ms in multi mode. |
| CardBuffer.PrefetchBuffer.constructor | services/cardBuffer.ts:5-6 | Both slots start empty, with no timers and no tasks. |
| CardBuffer.PrefetchBuffer.Fetch | services/cardBuffer.ts:12-24 | See the bullets below the table. |
| CardBuffer.PrefetchBuffer.Preload | services/cardBuffer.ts:26-36 | See the bullets below the table. |
| CardBuffer.PrefetchBuffer.TimerFire | services/cardBuffer.ts:17-22 | The chosen pending timer leaves the queue, and its refill runs with the parameters it was scheduled with. |
| CardBuffer.PrefetchBuffer.TaskFails | services/cardBuffer.ts:30-34 | When a running refill task fails, the slot of its mode becomes empty whatever it holds, and the other slot is unchanged. Tasks that no refill started touch no slot. |
| CardBuffer.PrefetchBuffer.TaskSucceeds | services/cardBuffer.ts:30 | A task that resolves stays in its slot; nothing else changes. |
| CardBuffer.PrefetchBuffer.ClearBuffer | services/cardBuffer.ts:102-106 | Both slots become empty from any state, which makes it idempotent. Scheduled timers and running tasks are kept. |
| CardBuffer.ColdFetchThenRefillOverlap | services/cardBuffer.ts:21-23 | After a cold fetch and its refill, two tasks of the same mode are running at the same time. |
| CardBuffer.LateFailureWipesNewerTask | services/cardBuffer.ts:30-34 | An old served task's failure empties the slot while the newer task in it is still running. |
| CardBuffer.ClearKeepsScheduledRefills | services/cardBuffer.ts:102-106 | A refill scheduled before `clearBuffer` fills the slot again after it. In the next game, with new settings, the first fetch gets a task for the new settings, but the second fetch is served the task made for the old difficulty and count. |
| CardBuffer.NumDistractors | services/cardBuffer.ts:72 | `max(1, count - 1)`: at least 1, at least `count - 1`, and equal to one of them. |
| CardBuffer.DistractorLoop | services/cardBuffer.ts:74-86 | A successful loop over `i` positions holds exactly `i` distractors. |
| CardBuffer.Drawn | services/cardBuffer.ts:77-84 | A position yields a card iff its first call or its retry does. When the first call succeeds its card is kept and the retry is not used. When the first call throws, the retry's outcome is the result: its card if it succeeds, and otherwise its error, so the first call's error is swallowed. |
| CardBuffer.PositionEvents | services/cardBuffer.ts:76-84 | A position makes 1 event plus the 500 ms pause after position 0, and 2 more (the 1000 ms pause and the retry) after a failed first call. Its last event is a call for that position. |
| CardBuffer.AbortIsFinal | services/cardBuffer.ts:80-85 | Once a position fails twice, later positions change neither the result nor the calls. |
| CardBuffer.DistractorLoopResult | services/cardBuffer.ts:74-86 | The loop succeeds iff every position yields a card, and then it holds those cards in position order. A failure carries the retry error of a position whose two calls both failed; there is no partial result. |
| CardBuffer.PositionEventsShape | services/cardBuffer.ts:76-84 | A position waits 500 ms first unless it is position 0, then calls. A first call that fails is followed by a 1000 ms wait and one more call for the same position. |
| CardBuffer.DistractorLoopPaced | services/cardBuffer.ts:74-86 | The first call is for position 0. Every later call comes straight after a pause, and every pause is followed by a call. Call positions never decrease and stay below the positions processed. |
| CardBuffer.DistractorLoopWaits | services/cardBuffer.ts:76-82 | Each pause is either 500 ms, between the last call of one position and the first call of the next, or 1000 ms, between a failed call and its retry for the same position. |
| CardBuffer.DistractorLoopCallCounts | services/cardBuffer.ts:77-85 | `generateSingleCard` is called at most twice per position. |
| CardBuffer.DistractorLoopPacing | services/cardBuffer.ts:74-86 | Collects the three pacing properties above for the whole loop. |
| CardBuffer.Swap | services/cardBuffer.ts:93 | The elements at `i` and `j` trade places and every other element stays. |
| CardBuffer.ShuffleFrom | services/cardBuffer.ts:91-94 | The shuffle iterations from `i` down keep the length and never touch positions above `i`. |
| CardBuffer.FisherYates | services/cardBuffer.ts:90-94 | The shuffle keeps the length, and a set of at most one card is left as it is. |
| CardBuffer.SwapPermutes | services/cardBuffer.ts:93 | A swap keeps the multiset of cards. |
| CardBuffer.ShuffleFromPermutes | services/cardBuffer.ts:91-94 | The shuffle iterations keep the length and the multiset, whatever the draws. |
| CardBuffer.FisherYatesPermutes | services/cardBuffer.ts:90-94 | The Fisher–Yates shuffle returns a permutation of its input. |
| CardBuffer.SwapInPlace | services/cardBuffer.ts:93 | The destructuring swap on the array equals the functional swap. |
| CardBuffer.Shuffle | services/cardBuffer.ts:90-94 | The in-place loop over the array leaves it as the Fisher–Yates function of its old contents. |
| CardBuffer.CollectDistractors | services/cardBuffer.ts:71-86 | The `for` loop produces exactly the distractors or error and the events of the loop's reference definition. |
| CardBuffer.GenerateMultiCardsImpl | services/cardBuffer.ts:64-100 | See the bullets below the table. |
| MainMenu.CycleDifficulty | components/MainMenu.tsx:20-25 | The difficulty moves one step along EASY, MEDIUM, HARD, wrapping after HARD; no other setting changes. |
| MainMenu.ToggleLanguage | components/MainMenu.tsx:27-32 | The language switches to the other one; no other setting changes. |
| MainMenu.ToggleTimer | components/MainMenu.tsx:17 | `useTimer` flips; no other setting changes. |
| MainMenu.ToggleVoice | components/MainMenu.tsx:18 | `useVoice` flips; no other setting changes, `multiCardCount` included. |
| MainMenu.Press | components/MainMenu.tsx:96-139 | Each of the four settings buttons changes the settings, and none of them changes `multiCardCount`. |
| MainMenu.CycleThriceIsIdentity | components/MainMenu.tsx:20-25 | Three difficulty presses restore the settings. |
| MainMenu.ToggleTwiceIsIdentity | components/MainMenu.tsx:17-32 | Two presses of any toggle restore the settings. |
| MainMenu.PressAllCounts | components/MainMenu.tsx:17-32 | After any sequence of presses, the difficulty has advanced once per press of its button (mod 3). Each toggle is changed iff its button was pressed an odd number of times, and the card count is untouched. |
| App.NextBackground | App.tsx:32 | The next background index is below the 6 colours. |
| App.RotateTimesIsModular | App.tsx:31-33 | From a valid index, `k` rotations advance it by `k` mod 6. |
| App.AfterRound | App.tsx:77-82 | One round update: the round counter goes up by 1, and the streak is positive and the score grows iff the round was won, by at most 10. Resting is untouched. |
| App.PlayTally | App.tsx:77-82 | From the reset state, the round counter equals the number of rounds. The score is 10 per win and at most 10 per round. The streak is the number of trailing wins, and the game is not resting. |
| App.AppController.constructor | App.tsx:12-28 | The shell starts at the menu with the initial settings, the reset game state and background 0. |
| App.AppController.RotateBackground | App.tsx:31-33 | The background index advances by one and wraps from 5 to 0; it stays in `[0, 6)`. |
| App.Voiced | App.tsx:36-93 | The lines that get past `speak`'s voice guard: the streak line iff voice is on and the cheer is due, the rest prompt iff voice is on and a rest is due, nothing with voice off, streak line first. |
| App.AppController.HandleRoundComplete | App.tsx:73-97 | See the bullets below the table. |
| App.AppController.ContinueAfterRest | App.tsx:159 | The rest break closes with the tally kept. |
| App.AppController.ReturnToMenu | App.tsx:99-104 | Back to the menu at round 0, score 0, streak 0 and not resting, with both buffer slots empty. The buffer's timers and tasks, including which are running or failed, are unchanged, and so are the settings and background. |
| App.AppController.Start | App.tsx:132 | The chosen mode is entered with everything else unchanged. |
| App.AppController.PressMenuButton | App.tsx:132 | A settings button applies its menu update to the settings and nothing else. |
| SingleCardMode.ClickRegion | components/SingleCardMode.tsx:79-88 | Top-left iff `x < w/3` and `y < h/2`, bottom-left iff `x < w/3` and `y >= h/2`. Top-right and bottom-right likewise for `x > 2w/3`. Center iff `w/3 <= x <= 2w/3`. |
| SingleCardMode.MirrorSwapsSides | components/SingleCardMode.tsx:79-88 | On a card of non-negative width the regions are symmetric about the card's vertical axis: a click at `w - x` lands in the left/right mirror of the region of a click at `x`, and center stays center. |
| SingleCardMode.IsCorrect | components/SingleCardMode.tsx:90 | On EASY every click counts as correct; otherwise a click is correct iff it lands in the difference's region. |
| SingleCardMode.SingleRound.constructor | components/SingleCardMode.tsx:16-21 | Starts loading with no card, no errors, no feedback, and the difference hidden. |
| SingleCardMode.SingleRound.CardLoaded | components/SingleCardMode.tsx:30-47 | Loading stops, and the card is shown if one arrived. |
| SingleCardMode.SingleRound.Flip | components/SingleCardMode.tsx:172 | The shown face switches. |
| SingleCardMode.SingleRound.HandleCardClick | components/SingleCardMode.tsx:67-106 | See the bullets below the table. |
| SingleCardMode.SingleRound.HandleFeedbackComplete | components/SingleCardMode.tsx:108-116 | Feedback clears, and a report is made iff the difference is shown. It reports a win iff the difference was found, which is iff `errors < 3`. |
| SingleCardMode.SingleRound.NextPressed | components/SingleCardMode.tsx:179-187 | The next button reports a win iff the difference was found, which is iff `errors < 3`. |
| SingleCardMode.ThreeMissesRevealAnswer | components/SingleCardMode.tsx:96-104 | On HARD, three misses show the answer only on the third, and the round is reported lost. |
| MultiCardMode.CardCount | components/MultiCardMode.tsx:29-31 | 2, 4 and 6 cards for EASY, MEDIUM and HARD. |
| MultiCardMode.CardCountMatchesBatch | components/MultiCardMode.tsx:39 | With the assembler's distractor rule, the requested set has exactly `cardCount` cards. |
| MultiCardMode.FindChangedFrom | components/MultiCardMode.tsx:49 | See the bullets below the table. |
| MultiCardMode.TargetIndex | components/MultiCardMode.tsx:49-50 | The first index with a description, or 0 when there is none; it lies inside a non-empty set. |
| MultiCardMode.TargetFound | components/MultiCardMode.tsx:47-50 | In any arrangement of a described target among undescribed distractors, the target index points at the target. |
| MultiCardMode.AssembledTargetFound | components/MultiCardMode.tsx:47-50 | In a shuffled set of a described target and built distractors, the target index points at the target. It is the only card with a description. |
| MultiCardMode.UndescribedTargetMissed | components/MultiCardMode.tsx:49-50 | With an empty target description, `findIndex` gives -1, the index falls back to 0, and after a shuffle that moved the target, card 0 is the distractor. |
| MultiCardMode.Rotation | components/MultiCardMode.tsx:158-168 | Only the target ever turns, and only while guessing (180) or during the reveal (the animated angle). |
| MultiCardMode.FlipAfter | components/MultiCardMode.tsx:24 | The target's angle is always 0 or 180. |
| MultiCardMode.Toggle | components/MultiCardMode.tsx:116 | The angle is 0 or 180, and from either of them it moves to the other. |
| MultiCardMode.ToggleAdvances | components/MultiCardMode.tsx:116 | Each toggle moves the angle one step along 180, 0, 180, …. |
| MultiCardMode.MultiRound.constructor | components/MultiCardMode.tsx:16-24 | Starts loading in the memorize phase with target index -1, no time, no feedback, and the target angle at 180. |
| MultiCardMode.MultiRound.CardsLoaded | components/MultiCardMode.tsx:34-68 | Loaded cards get their target index. With the timer on, `timeLeft` is `2 * cardCount`. Memorizing (re)starts, loading stops, and a failure changes nothing else. |
| MultiCardMode.MultiRound.TimerEffect | components/MultiCardMode.tsx:71-78 | A memorize phase with the timer on and no time left moves to covered, with one more cover timer. |
| MultiCardMode.MultiRound.Tick | components/MultiCardMode.tsx:73 | Each second of memorizing takes exactly 1 off `timeLeft`. |
| MultiCardMode.MultiRound.HandleReady | components/MultiCardMode.tsx:80-87 | Memorize moves to covered and schedules the switch to guess. |
| MultiCardMode.MultiRound.CoverTimerFires | components/MultiCardMode.tsx:83-86 | A fired cover timer starts guessing. |
| MultiCardMode.MultiRound.HandleCardClick | components/MultiCardMode.tsx:89-102 | Picks outside guessing are ignored. Otherwise the feedback is success iff the index is the target; the phase never changes. |
| MultiCardMode.MultiRound.OnFeedbackDone | components/MultiCardMode.tsx:104-127 | Feedback clears. After success the reveal phase starts with a new interval at count 0; after an error the phase is unchanged. |
| MultiCardMode.MultiRound.RevealTick | components/MultiCardMode.tsx:112-121 | Each tick toggles the angle and counts. The fourth tick stops the interval and schedules the win, and once every reveal has stopped the target is at 180. |
| MultiCardMode.MultiRound.CompletionFires | components/MultiCardMode.tsx:120 | The only completion of the mode reports success. |
| MultiCardMode.MultiRound.Rotations | components/MultiCardMode.tsx:156-168 | One angle per card, each given by the rotation rule. |
| MultiCardMode.NormalRound | components/MultiCardMode.tsx:80-121 | Covering, a correct pick and one full reveal end with the target at 180 and the round won. |
| MultiCardMode.StaleCoverTimerCutsMemorize | components/MultiCardMode.tsx:71-87 | With the timer on, the cover timer from mount starts guessing while memorize time is left. |

These rows have longer contracts:

- **GeminiService.PairAttempt:**
  - The attempt succeeds iff there is a scenario and both payloads are non-empty. The card then holds both data URLs and the scenario's description, location and prompt.
  - It sends at most two image requests: the prompt with the style suffix, then an edit request with the instruction plus the edit suffix.
  - An error thrown by the scenario, front-image or back-image call is passed on unchanged, so the retry test sees the backend's own message.
  - A missing scenario or payload has its own error: "Failed to generate scenario", "Blocked or failed Front Image" or "Blocked or failed Back Image".
- **CardBuffer.PrefetchBuffer.Fetch** (the multi-mode fetch at services/cardBuffer.ts:39-50 behaves the same):
  - A hit returns the stored task, empties the slot and schedules a refill after 3000 ms (4000 ms in multi mode).
  - A miss starts an unstored task, returns it and schedules a refill after 5000 ms (6000 ms in multi mode).
  - Exactly one timer is added, and the other slot is untouched.
- **CardBuffer.PrefetchBuffer.Preload** (the multi-mode refill at services/cardBuffer.ts:52-61 behaves the same):
  - An empty slot gets a newly started refill task.
  - An occupied slot changes nothing; the other slot is untouched.
- **CardBuffer.GenerateMultiCardsImpl:**
  - The target is built first, and a failed target ends the batch before any distractor.
  - A failed distractor position ends the batch with its error.
  - A successful batch is the Fisher–Yates shuffle of the target followed by the distractors. It has length `1 + max(1, count-1)` and is a permutation of them.
- **App.AppController.HandleRoundComplete:**
  - The round counter goes up by exactly 1. The score gains 10 on a win only, and the streak goes up by 1 on a win or resets to 0.
  - `speak` is called with a streak line iff the round was won and the new streak is a multiple of 5, that is iff the wins at the end of the history are a multiple of 5.
  - `speak` is called with the rest prompt and the rest break opens iff the new round count, the length of the history, is a multiple of 10; otherwise the background advances.
  - The lines actually spoken are those of `Voiced`: none with voice off.
  - The tally always equals that of the history of rounds.
- **SingleCardMode.SingleRound.HandleCardClick:**
  - Clicks are ignored with no card or once the difference is shown.
  - A correct click (same region, or EASY) shows the difference.
  - A wrong click adds exactly 1 error and shows the difference iff the errors reach 3, so errors never exceed 3.
- **MultiCardMode.FindChangedFrom:** this is `findIndex`. It returns -1 iff no card has a description; otherwise it returns the first card with one.

## Left out

- The backend client, the API key check and the network calls (`getClient`, `generateContent`) are opaque. Each call is an oracle outcome: payload, missing payload, or an error message.
- `JSON.parse` of the scenario is library parsing, and its result is taken as a given record. The code does not check that `diffLocation` is one of the five regions; the model assumes it is.
- The difficulty prompt texts and the system instruction of the scenario request are text with no behaviour.
- `setTimeout`, `setInterval`, promises and the event loop are not modelled as time. Delays are recorded as numbers, pending timers as queues or counters, and events are processed one at a time in an order the caller chooses. Cancelling an interval, and the cleanup of effects, appear only where a handler stops its own interval.
- `Math.random` and `crypto.randomUUID` are parameters: shuffle draws, pool picks and card ids. Voice lines chosen at random are not modelled.
- The `speak` helper (speech synthesis, voices, pitch and rate) is I/O and is left out. The model records when `speak` is called and which lines get past its voice-setting guard. Each call cancels the speech still playing, so when both lines are due only the rest prompt is heard to the end; that is not modelled.
- React rendering, Tailwind classes, DOM geometry, the `mounted` flags and the `key` remount are left out. The click model takes `x`, `y`, `w` and `h` as given reals. JavaScript numbers are IEEE doubles, and the model uses exact reals for the region tests.
- Stale closures are left out. `handleRoundComplete` reads the rendered `gameState` while its updaters see the latest one, and the menu's `cycleDifficulty` reads the rendered settings. With events processed one at a time, the two agree.
- The presentational components `Button`, `FeedbackOverlay` and `RestModal`, and the menu's demo flip loop, have no game logic. `ContinueAfterRest` and `ReturnToMenu` stand for the two callbacks `RestModal` receives.
- `SingleCardMode.SingleRound.HandleFeedbackComplete`: after a found difference the source reports the result through a 2 s `setTimeout` that unmounting does not cancel (components/SingleCardMode.tsx:112-114). The model reports at once, so it does not capture a report that arrives after the round has been left.
- The single-card hint timer (the flip hint spoken after 5 s) and the flip-button highlight are presentation only.
- `GeminiService.WithRetry`: it needs one outcome for every invocation that could happen, at least `retries + 1` of them. The source needs no such bound, and the extra outcomes are simply never used.
- `CardBuffer.GenerateMultiCardsImpl`: it needs a retry outcome for every distractor position, used only when the first call throws, and a draw for every shuffle iteration. A `generateSingleCard` or `generateCardPair` call is one oracle outcome; its internal retries are modelled by `GenerateSingleCard` and `GenerateCardPair` separately.
- `CardBuffer.PrefetchBuffer.Fetch`: the returned value is a task id, not the card. What a caller awaiting the task sees is its success or failure, `TaskSucceeds` or `TaskFails`.
