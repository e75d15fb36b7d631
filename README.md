# Animal-sounds game: mode resolver, session recorder and round controller

This project models the logic of the animal-sounds mini-game of a preschool
e-learning front end, and proves properties of that model. The logic has three
parts, and each is a Dafny module:

- **`GameConfig`** (`src/config/gameConfig.ts`) is the mode resolver. A
  configuration object holds one of three mode literals, `DATA_COLLECTION`,
  `PREDICTION` or `BOTH`. The mode decides which backends receive attempts:
  the data-collection app, the prediction service, or both. At load time it
  also decides whether the prediction button is shown.
- **`Services`** (`src/services/gameService.ts`) is the session recorder, the
  class `GameService`. It holds a session id and an attempt counter. A
  recorded attempt goes to the active backends, app first and prediction
  service second. Their answers are merged into one result, and any failure
  is absorbed. A separate request asks the prediction service for an
  analysis. That request is gated on the mode and on a minimum number of
  attempts.
- **`IndexPage`** (`src/pages/Index.tsx`) is the game-round controller: the
  state of the game page and its handlers. These are the click guard, the
  correctness test and score update, and the rule that turns the prediction
  button on. They also include reset and the guarded prediction request.

Two small helper modules support them. `Wrappers` holds an `Option` type.
`Decimal` writes a timestamp as decimal text and reads it back.

Network calls, clocks and random numbers are parameters:

- Each backend call is a supplied `Reply`. It is either `Fail` (the request
  was rejected, or its body was not JSON) or `Ok(body)`.
- A record answer may or may not carry `stats`, and stats may or may not carry
  `can_predict`. An analysis answer carries its own `success` flag.
- Every method that would talk to a backend returns the requests it would
  send, in order.
- `Date.now()` and `Math.random()` are parameters. The random part of a
  session id is supplied as the text `Math.random().toString(36)`.

The configured mode is kept as a string, not as the enum. TypeScript's union
type does not exist at run time, so the configured value can name no mode.
That is the only way the `Unknown mode` fallback can be reached.
`GameConfig.ParseMode` relates the string to the three-valued `GameMode`.

Three facts about the program shape the model:

- The fallback description is `Unknown mode`.
- In `BOTH` mode, one failed call turns the whole result into a failure.
- `recordAttempt` does not apply the minimum-attempts threshold. Only the page
  combines it with `canPredict`.

## Model

| member | source | states |
|---|---|---|
| `GameConfig.ParseMode` | src/config/gameConfig.ts:22 | a mode literal is recognised exactly when it is the written name of one of the three modes, and it denotes that mode |
| `GameConfig.Config.constructor` | src/config/gameConfig.ts:42-72 | the configuration literal holds the given mode, URLs and minimum, with the prediction UI flag initially false |
| `GameConfig.Config.AutoConfigureUI` | src/config/gameConfig.ts:74-77 | the load-time step turns the UI flag on for `PREDICTION` and `BOTH` and leaves it as it was otherwise |
| `GameConfig.Config.Load` | src/config/gameConfig.ts:42-77 | after load, the UI flag equals `shouldCallPredictionAPI()`, and the URLs and minimum of 5 are the shipped constants |
| `GameConfig.Config.LoadShipped` | src/config/gameConfig.ts:42-77 | the shipped configuration is in `BOTH` mode: both backends and the prediction UI are on, described as full mode |
| `GameConfig.Config.ShouldCallAppAPI` | src/config/gameConfig.ts:86-88 | true exactly when the mode is `DATA_COLLECTION` or `BOTH` |
| `GameConfig.Config.ShouldCallPredictionAPI` | src/config/gameConfig.ts:93-95 | true exactly when the mode is `PREDICTION` or `BOTH` |
| `GameConfig.Config.ShouldShowPredictionUI` | src/config/gameConfig.ts:100-102 | returns the stored UI flag and changes nothing |
| `GameConfig.Config.GetModeDescription` | src/config/gameConfig.ts:107-118 | each recognised mode gets its own label (data collection, prediction, full mode), and the result is `Unknown mode` exactly when the configured value names no mode |
| `GameConfig.EveryModeHasABackend` | src/config/gameConfig.ts:86-95 | each recognised mode activates at least one backend, and both are active exactly in `BOTH` |
| `GameConfig.UnknownModeIsInert` | src/config/gameConfig.ts:86-118 | a value naming no mode activates no backend and is described as `Unknown mode` |
| `GameConfig.DescriptionsIdentifyModes` | src/config/gameConfig.ts:107-118 | two recognised modes get the same description exactly when they are the same mode |
| `Decimal.FromNat` | src/services/gameService.ts:96 | the decimal text of the timestamp is non-empty, all digits, and has no leading zero |
| `Decimal.ToNatFromNat` | src/services/gameService.ts:96 | the decimal text of a timestamp reads back as that timestamp |
| `Services.Substring` | src/services/gameService.ts:95 | `substring` clamps its bounds to the string and orders them. In range it is the slice. With the end past the string it runs to the end. Past the end it is empty. Swapped bounds give the same piece as ordered ones. It is never longer than the bounds allow |
| `Services.SessionIdRoundTrip` | src/services/gameService.ts:96 | `session_`, the decimal timestamp, `_` and any text parse back into exactly that timestamp and text |
| `Services.GenerateSessionId` | src/services/gameService.ts:93-97 | a generated id has the form `session_<timestamp>_<random>`: it starts with `session_` and parses back to its timestamp and characters 2 to 15 of the random text, at most 13 of them |
| `Services.InteractionPayload` | src/services/gameService.ts:123-132 | the posted body carries the session id and the internal attempt counter, with every other field copied from the caller's attempt data |
| `Services.GameService.constructor` | src/services/gameService.ts:82-88 | a new service has a generated session id and an attempt count of 0 |
| `Services.PayloadIgnoresCallerAttemptNumber` | src/services/gameService.ts:123-156 | the `attempt_number` posted is the internal counter, whatever attempt number the caller passed |
| `Services.AllowsPrediction` | src/services/gameService.ts:197 | the fallback of `stats?.can_predict` to false: false without stats, and otherwise true exactly when `can_predict` is present and true |
| `Services.RecordOutcome` | src/services/gameService.ts:193-210 | the result of a recorded attempt carries the counter and the mode. Success holds exactly when every active backend answers. `stats` is the prediction answer's own, and absent on failure or without prediction. `canPredict` holds exactly on success with `can_predict` true. A failure has no stats and `canPredict` false |
| `Services.OutgoingRequests` | src/services/gameService.ts:117-160 | one request per active backend, 0, 1 or 2 in all, the app's `/log-interaction` first and the prediction service's `/record` last, all with the same body |
| `Services.GameService.RecordAttempt` | src/services/gameService.ts:107-212 | the counter goes up by one whatever the replies are, and the session id is kept. The requests are exactly the outgoing ones for the new counter. The result is the recorded-attempt outcome for the new counter and the supplied replies |
| `Services.GameService.AnalysisAllowed` | src/services/gameService.ts:220-230 | the gate of a prediction request: the mode is `PREDICTION` or `BOTH` and the attempt count has reached the minimum |
| `Services.GameService.GetPrediction` | src/services/gameService.ts:219-257 | without prediction or below the minimum it sends nothing and returns null. Otherwise it sends one `/analyze` request with the session id, and returns the answer unchanged exactly when it arrives with `success` true |
| `Services.GameService.Reset` | src/services/gameService.ts:282-286 | the session id is replaced by a freshly generated one and the counter is 0; the configuration is untouched |
| `Services.GameService.GetSessionId` | src/services/gameService.ts:291-293 | returns the current session id |
| `Services.GameService.GetAttemptCount` | src/services/gameService.ts:295-297 | returns the current attempt count |
| `Services.GameService.GetCurrentMode` | src/services/gameService.ts:299-301 | returns the configured mode |
| `IndexPage.IsCorrect` | src/pages/Index.tsx:85 | no answer is correct without a current animal; with one, an answer is correct exactly when it names that animal |
| `IndexPage.ShouldEnablePrediction` | src/pages/Index.tsx:112-113 | the button rule is: UI enabled AND (service says `canPredict` OR attempt count reached the minimum) |
| `IndexPage.RiskBadgeColor` | src/pages/Index.tsx:202-213 | LOW maps to green, MODERATE to yellow, HIGH to red, and anything else (only anything else) to gray |
| `IndexPage.AnimalSoundsGame.constructor` | src/pages/Index.tsx:41-54 | the page starts with score 0, no animal, nothing selected, the game not started, the button off, no prediction and no sound time |
| `IndexPage.AnimalSoundsGame.SelectRandomAnimal` | src/pages/Index.tsx:56-60 | the chosen animal becomes current and the answer is cleared; nothing else changes. The mount effect at Index.tsx:198-200 and `resetGame` run it |
| `IndexPage.AnimalSoundsGame.ClickIgnored` | src/pages/Index.tsx:81 | a click counts exactly when the game has started, a non-zero sound time is set and no non-empty answer is shown |
| `IndexPage.AnimalSoundsGame.PlaySound` | src/pages/Index.tsx:62-78 | with an animal chosen, it stamps the sound time and starts the game, setting the session start only on first play; nothing else changes |
| `IndexPage.AnimalSoundsGame.HandleAnimalClick` | src/pages/Index.tsx:80-147 | a click while an answer is shown, the game is not started or no sound time is set changes nothing and records nothing. Otherwise: score rises by one exactly on a correct answer. The attempt is recorded once, with the new score as `totalScore`, and the recorded result is the recorder's outcome for the supplied replies. `canPredict` becomes old value OR the button rule, so it is never turned off. The score never exceeds the recorded attempts |
| `IndexPage.AnimalSoundsGame.ResetGame` | src/pages/Index.tsx:149-159 | score 0, game not started, button off, no prediction shown, sound time cleared, the service reset to a new session, and a new animal chosen |
| `IndexPage.AnimalSoundsGame.AfterCorrectAnswer` | src/pages/Index.tsx:131-135 | after a correct answer, confetti is off, a new animal is chosen, the answer is cleared and the sound time is unset |
| `IndexPage.AnimalSoundsGame.AfterWrongAnswer` | src/pages/Index.tsx:143-145 | after a wrong answer, only the shown answer is cleared, so the player can try again |
| `IndexPage.AnimalSoundsGame.HandleGetPrediction` | src/pages/Index.tsx:161-196 | with the button off nothing is asked of the service and nothing changes. Otherwise the request sent is the service's single `/analyze` request when the service allows it, and none otherwise. A relayed prediction is stored and shown, and loading ends |

## Left out

- Rendering, CSS, animation, speech synthesis, toasts, the confetti effect
  and the prediction dialog's display of probabilities are visual output with
  no logic to state.
- The other pages and components (shapes, detectors, recorder, navigation)
  are not part of this model.
- Real HTTP, JSON parsing and `Promise.all` are not modelled. Each call is
  one supplied outcome, and calls are processed in their fixed order. A
  rejected request and an unreadable body are the same `Fail`. Simultaneous
  in-flight requests are not modelled.
- `getSessionData` is a debug-only fetch wrapper, and it is not modelled.
  `logConfig` and all console diagnostics are log output only.
- `Date.now()` and `Math.random()` are supplied as parameters. One click uses
  a single `now` for both of its clock readings, and so does one press of
  Play Sound. `Math.floor(Math.random() *
  animals.length)` is a supplied index below the number of animals.
- Session ids are not claimed to be unique. The source only joins a timestamp
  and a random string.
- Decimal.FromNat: JavaScript writes numbers from 10^21 upward in exponential
  notation. The model always writes plain digits. Clock values never come
  near that bound.
- `gameDurationSec` and the `Stats`/`PredictionResult` numbers are exact
  reals, not IEEE doubles. The core only passes them through.
- The response-time `toFixed` formatting is display formatting only.
- The timers behind the deferred steps after an answer are not modelled.
  `AfterCorrectAnswer` and `AfterWrongAnswer` are steps that the environment
  calls when the timer fires.
- Every handler runs to completion, with no other handler in between. In the
  program, `handleAnimalClick` awaits `recordAttempt`, and Reset stays
  clickable during that wait. A reset in that window makes the recorder's
  result report the count read after the reset. The old session's answer can
  still turn the button on, and the score can then exceed the attempts
  recorded. Two facts depend on handlers running to completion: the
  attempt-count postcondition of `RecordAttempt` and the invariant `Valid()`
  of the page.
- JavaScript truthiness is modelled only where the core depends on it.
  `can_predict` is an optional boolean: a truthy non-boolean value would be
  relayed as itself, and this is not modelled. `success` on an analysis
  answer is a boolean.
- In `handleGetPrediction`, the `catch` branch cannot be reached because
  `getPrediction` never raises. It is not modelled, and the loading flag is
  cleared on the one path that exists.
- Counters are unbounded naturals. JavaScript numbers lose precision above
  2^53 attempts.
