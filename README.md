# Hangman: guess oracle, request handlers and two-player page controller

This project models, in Dafny, the three pieces of logic of the hangman game
repository (a word-guessing game with a single-player mode and a local
two-player mode, backed by a small word and guess service):

- **The guess oracle** (`HangmanService`, `hangman_service.dfy`):
  `validateGuess(word, guess)` lower-cases both strings and scans the word
  with an index loop, collecting every position whose character equals the
  guess; `isCorrect` says whether any was found. It is modelled twice: as the
  loop itself (`ValidateGuess`, a method with its invariant) and as a
  recursive function over the word's prefix (`Occurrences` /
  `ValidateGuessSpec`), and the method is proved to compute the function.
  The lemmas prove soundness, completeness, strict ascending order,
  `isCorrect` iff the letter occurs, case-insensitivity, the bound on the
  number of positions, the empty word, and that the positions are the only
  strictly ascending list with exactly those members. `getRandomWord` returns
  some element of the word list.
- **The request handlers** (`HangmanController`, `hangman_controller.dfy`):
  `validateGuess` is a total function from the parsed request body to the
  single response it writes: a 400 with one of three messages (word first,
  then guess length, then letter), a 200 carrying the oracle's result, or a
  500 when the handler throws. If the `catch` block's own logging throws, no
  response is written and the exception leaves the handler. JavaScript truthiness and `typeof` are modelled
  on a small `JsValue` type, and lemmas restate each guard without the
  coercions. `getWord` returns `{word, length}`, a 500, or no response when the `catch` block's logging throws too.
- **The two-player page** (`TwoPlayerGame`, `two_player_game.dfy`): the page
  owns a phase (`playing | transition | ended`) and the captured result of the
  last round. The round-end effect and the buttons ("Continue", "End Game",
  "Play Again", "Main Menu", "Try Again") change those and call the match
  context, the round engine and the router. Those calls are recorded in order
  as a trace of `Call`s. Each reaction is a function on the page state
  (`OnRoundStatus`, `OnContinue`, ...). The component is a class whose fields
  are the two state variables and the call trace. Its methods are proved to
  perform exactly those reactions, and its invariant says that its state is
  the run of its event history. Over any run of events, each player gets as
  many score calls as rounds they won while current. The turn passes exactly
  once per "Continue". The page invariant holds throughout. The render
  (keyboard, attempts, banner, the two modals) is a function with lemmas
  about which modal is open after which event.

The match context (`TwoPlayerContext`) and the round engine (`useHangmanGame`)
are not part of this model: the page reads snapshots of their state
(`TwoPlayerState`, `RoundView`) and the model records the calls made on them
without giving those calls a meaning.

Two behaviours of the code are worth stating outright:
- The page's round-end effect does not look at the phase, so 'ended' is not
  terminal: a round that finishes after "End Game" moves the page back to
  'transition' (`RoundEndAfterEndGame`).
- The service accepts any guess string. It compares each word character, as a
  one-character string, with the whole lower-cased guess, so a guess of any
  other length matches nowhere (`ValidateGuessNonCharacter`). Only the
  controller's guards restrict the guess to a single ASCII letter.

## Model

| member | source | states |
|---|---|---|
| HangmanService.Occurrences | server/src/services/hangmanService.ts:32-39 | every collected index is inside the word and its character equals the guess; the list ascends strictly and is no longer than the word |
| HangmanService.LowerString | server/src/services/hangmanService.ts:29-30 | `toLowerCase` keeps the length and leaves no upper-case letter |
| HangmanService.ValidateGuessSpec | server/src/services/hangmanService.ts:28-45 | the oracle's result: `isCorrect` iff positions is non-empty, at most word-length positions, all inside the word; soundness, completeness and order are stated by the lemmas below |
| HangmanService.OccurrencesComplete | server/src/services/hangmanService.ts:35-38 | every index whose character equals the guess is collected |
| HangmanService.OccurrencesMembership | server/src/services/hangmanService.ts:35-38 | an index is collected if and only if it is in range and its character equals the guess |
| HangmanService.OccurrencesOfNonCharacter | server/src/services/hangmanService.ts:36 | a guess that is not exactly one character equals no one-character string, so nothing is collected |
| HangmanService.ValidateGuess | server/src/services/hangmanService.ts:28-45 | the index loop computes the oracle's result (lower-cased scan, `isCorrect` iff positions non-empty) |
| HangmanService.ValidateGuessPositions | server/src/services/hangmanService.ts:29-38 | for a one-letter guess, an index is in `positions` iff it is inside the word and the word's character there equals the guess ignoring case (soundness and completeness) |
| HangmanService.ValidateGuessShape | server/src/services/hangmanService.ts:32-44 | positions ascend strictly, are in range, number at most the word length, and `isCorrect` holds iff the letter occurs in the word ignoring case |
| HangmanService.ValidateGuessPositionsUnique | server/src/services/hangmanService.ts:32-39 | any strictly ascending list holding exactly the matching indices equals `positions` |
| HangmanService.StrictlyIncreasingUnique | server/src/services/hangmanService.ts:35-37 | two strictly ascending index lists with the same members are equal |
| HangmanService.ValidateGuessEmptyWord | server/src/services/hangmanService.ts:32-44 | the empty word gives `{isCorrect: false, positions: []}` |
| HangmanService.ValidateGuessNonCharacter | server/src/services/hangmanService.ts:29-42 | a guess of length other than one gives `{isCorrect: false, positions: []}` |
| HangmanService.ValidateGuessIgnoresCase | server/src/services/hangmanService.ts:29-30 | words and guesses that differ only in letter case give the same result |
| HangmanService.ValidateGuessUpperCaseLetter | server/src/services/hangmanService.ts:29-30 | an example of the case-insensitivity lemma: upper-casing any one letter of the word leaves the result unchanged |
| HangmanService.GetRandomWord | server/src/services/hangmanService.ts:17-20 | a word is returned iff the list is non-empty, and it is an element of the list |
| HangmanController.WordGuard | server/src/controllers/hangmanController.ts:48 | the word guard rejects exactly the values that are not a non-empty string |
| HangmanController.GuessGuard | server/src/controllers/hangmanController.ts:56 | the guess guard rejects exactly the values that are not a one-character string |
| HangmanController.Catch | server/src/controllers/hangmanController.ts:88-97 | no contract of its own beyond its body; stated by ServerErrorOnException and GetWordPayload |
| HangmanController.HandleValidateGuess | server/src/controllers/hangmanController.ts:43-98 | each request gets at most one response, with status 200, 400 or 500, `success` true exactly on 200; no response only when `logger.error` throws; the guard order and the 200 payload are stated by the lemmas below |
| HangmanController.WordErrorWins | server/src/controllers/hangmanController.ts:48-54 | a missing, empty or non-string word gives 400 "Word is required and must be a string", whatever the guess |
| HangmanController.GuessErrorSecond | server/src/controllers/hangmanController.ts:56-62 | with a valid word, a guess that is not a one-character string gives 400 "Guess is required and must be a single character" |
| HangmanController.LetterErrorThird | server/src/controllers/hangmanController.ts:64-71 | with a valid word, a one-character guess outside `[a-zA-Z]` gives 400 "Guess must be a letter (a-z)" |
| HangmanController.OracleReachedOnlyWhenValid | server/src/controllers/hangmanController.ts:73-87 | the status is 200 iff all three guards pass and nothing throws, and then the payload is exactly the oracle's result |
| HangmanController.ServerErrorOnException | server/src/controllers/hangmanController.ts:88-97 | an exception inside the handler (a nullish body, or `logger.info` throwing) gives 500 "Failed to validate guess" exactly when the catch's `logger.error` does not throw, and leaves the handler with no response exactly when it does; nothing else gives either |
| HangmanController.SuccessfulGuessMeaning | server/src/controllers/hangmanController.ts:73-87 | a 200 response lists exactly the indices of the guessed letter (either case), in ascending order, and `isCorrect` says whether there is one |
| HangmanController.HandleGetWord | server/src/controllers/hangmanController.ts:9-37 | a 200 payload carries `length == word.length`; the full outcome is stated by GetWordPayload |
| HangmanController.GetWordPayload | server/src/controllers/hangmanController.ts:9-37 | `getWord` answers 200 with a word of the list iff the list is non-empty and `logger.info` does not throw; otherwise 500 "Failed to generate word" when the catch's `logger.error` succeeds, and no response (the exception escapes) when it throws |
| TwoPlayerGame.SelectorsPickOppositePlayers | frontend/src/features/hangman/pages/TwoPlayerGame.tsx:102-112 | the next player is the one who is current once the turn passes, and with distinct names the two selectors never give the same name |
| TwoPlayerGame.CurrentPlayerName | frontend/src/features/hangman/pages/TwoPlayerGame.tsx:102-106 | no contract of its own beyond its body; stated by SelectorsPickOppositePlayers and RenderAfterRoundEnd |
| TwoPlayerGame.NextPlayerName | frontend/src/features/hangman/pages/TwoPlayerGame.tsx:108-112 | the name of the other player |
| TwoPlayerGame.OnMount | frontend/src/features/hangman/pages/TwoPlayerGame.tsx:46-48 | no contract of its own; stated by TwoPlayerGamePage.MountEffect and the run lemmas |
| TwoPlayerGame.OnRoundStatus | frontend/src/features/hangman/pages/TwoPlayerGame.tsx:51-72 | no contract of its own; stated by RoundEndRecordsOutcome, RoundInProgressIgnored and RoundEndAfterEndGame |
| TwoPlayerGame.OnContinue | frontend/src/features/hangman/pages/TwoPlayerGame.tsx:74-86 | no contract of its own; stated by ContinueOrder and RenderAfterHandlers |
| TwoPlayerGame.OnEndGame | frontend/src/features/hangman/pages/TwoPlayerGame.tsx:88-90 | no contract of its own; stated by EndGameFromAnyPhase, EndGameAddsNoCall and RenderAfterHandlers |
| TwoPlayerGame.OnPlayAgain | frontend/src/features/hangman/pages/TwoPlayerGame.tsx:92-95 | no contract of its own; stated by PlayAgainAndMainMenuDifferInTarget |
| TwoPlayerGame.OnMainMenu | frontend/src/features/hangman/pages/TwoPlayerGame.tsx:97-100 | no contract of its own; stated by PlayAgainAndMainMenuDifferInTarget |
| TwoPlayerGame.OnTryAgain | frontend/src/features/hangman/pages/TwoPlayerGame.tsx:127-130 | no contract of its own; stated by TwoPlayerGamePage.HandleTryAgain and the run lemmas |
| TwoPlayerGame.RoundEndRecordsOutcome | frontend/src/features/hangman/pages/TwoPlayerGame.tsx:51-71 | on 'won' the only call is the current player's score increment, on 'lost' there is no call at all; the captured result records outcome, current player's name and word; the phase becomes 'transition' |
| TwoPlayerGame.RoundInProgressIgnored | frontend/src/features/hangman/pages/TwoPlayerGame.tsx:51-52 | while the round is being played the round-end effect changes nothing and calls nothing |
| TwoPlayerGame.ContinueOrder | frontend/src/features/hangman/pages/TwoPlayerGame.tsx:74-86 | "Continue" calls switch player, increment round, reset round, start round in that order, and returns the page to 'playing' with no captured result |
| TwoPlayerGame.EndGameFromAnyPhase | frontend/src/features/hangman/pages/TwoPlayerGame.tsx:88-90 | "End Game" moves to 'ended' from any phase, makes no call and keeps the captured result |
| TwoPlayerGame.PlayAgainAndMainMenuDifferInTarget | frontend/src/features/hangman/pages/TwoPlayerGame.tsx:92-100 | "Play Again" and "Main Menu" both reset the match and leave the page unchanged; only the navigation target differs |
| TwoPlayerGame.RoundEndAfterEndGame | frontend/src/features/hangman/pages/TwoPlayerGame.tsx:51-90 | a round won after "End Game" brings the page back to 'transition': 'ended' is not closed under the round-end effect |
| TwoPlayerGame.HandlePreservesInvariant | frontend/src/features/hangman/pages/TwoPlayerGame.tsx:38-100 | every event keeps the page invariant ('playing' has no captured result, 'transition' has one) |
| TwoPlayerGame.RunPreservesInvariant | frontend/src/features/hangman/pages/TwoPlayerGame.tsx:38-100 | the page invariant holds after any sequence of events |
| TwoPlayerGame.RunSnoc | frontend/src/features/hangman/pages/TwoPlayerGame.tsx:38-100 | one more event extends a run by that event's page change and calls |
| TwoPlayerGame.StepScoreCalls | frontend/src/features/hangman/pages/TwoPlayerGame.tsx:57-60 | one event awards player n a point exactly when it ends a won round with n current |
| TwoPlayerGame.ScoreCallsCountWins | frontend/src/features/hangman/pages/TwoPlayerGame.tsx:57-60 | over any sequence of events, each player gets exactly as many score calls as rounds they won while current; lost rounds and other events award none |
| TwoPlayerGame.StepTurnCalls | frontend/src/features/hangman/pages/TwoPlayerGame.tsx:74-78 | one event passes the turn and bumps the round exactly when it is "Continue" |
| TwoPlayerGame.TurnCallsCountContinues | frontend/src/features/hangman/pages/TwoPlayerGame.tsx:74-78 | over any sequence of events, the turn passes and the round number is bumped exactly once per "Continue" |
| TwoPlayerGame.EndGameAddsNoCall | frontend/src/features/hangman/pages/TwoPlayerGame.tsx:88-90 | "End Game" after any events adds no call and leaves the page 'ended' |
| TwoPlayerGame.IsRoundOver | frontend/src/features/hangman/pages/TwoPlayerGame.tsx:139 | no contract of its own; stated by KeyboardAndAttempts |
| TwoPlayerGame.RemainingAttempts | frontend/src/features/hangman/pages/TwoPlayerGame.tsx:140 | no contract of its own; stated by KeyboardAndAttempts |
| TwoPlayerGame.Render | frontend/src/features/hangman/pages/TwoPlayerGame.tsx:142-218 | no contract of its own; stated by KeyboardAndAttempts, ModalsFollowPhase, RenderAfterRoundEnd and RenderAfterHandlers |
| TwoPlayerGame.KeyboardAndAttempts | frontend/src/features/hangman/pages/TwoPlayerGame.tsx:139-140 | the keyboard is disabled exactly when the round is not being played; remaining attempts plus wrong guesses is the maximum, within 0..max while the engine keeps its bound |
| TwoPlayerGame.ModalsFollowPhase | frontend/src/features/hangman/pages/TwoPlayerGame.tsx:196-209 | the transition modal is open iff the phase is 'transition' and a result is captured, the final-score modal iff 'ended', never both; under the invariant the transition modal is open exactly in 'transition' |
| TwoPlayerGame.RenderAfterRoundEnd | frontend/src/features/hangman/pages/TwoPlayerGame.tsx:196-204 | right after a round ends the keyboard is disabled and the transition modal is open, naming the player in the banner, the outcome, the word and the other player as next |
| TwoPlayerGame.RenderAfterHandlers | frontend/src/features/hangman/pages/TwoPlayerGame.tsx:74-90 | after "Continue" no modal is shown; after "End Game" only the final-score modal is open |
| TwoPlayerGame.TwoPlayerGamePage.constructor | frontend/src/features/hangman/pages/TwoPlayerGame.tsx:38-43 | the page starts in 'playing' with no captured result and no calls made |
| TwoPlayerGame.TwoPlayerGamePage.ValidKeepsPageInvariant | frontend/src/features/hangman/pages/TwoPlayerGame.tsx:38-100 | the component's state always satisfies the page invariant |
| TwoPlayerGame.TwoPlayerGamePage.MountEffect | frontend/src/features/hangman/pages/TwoPlayerGame.tsx:46-48 | mounting starts the round and changes no page state |
| TwoPlayerGame.TwoPlayerGamePage.RoundEndEffect | frontend/src/features/hangman/pages/TwoPlayerGame.tsx:51-72 | the effect performs exactly the round-end reaction on the component's state and call trace |
| TwoPlayerGame.TwoPlayerGamePage.HandleContinue | frontend/src/features/hangman/pages/TwoPlayerGame.tsx:74-86 | appends the four calls in source order and resets the page to 'playing' with no captured result |
| TwoPlayerGame.TwoPlayerGamePage.HandleEndGame | frontend/src/features/hangman/pages/TwoPlayerGame.tsx:88-90 | sets 'ended', keeps the captured result, makes no call |
| TwoPlayerGame.TwoPlayerGamePage.HandlePlayAgain | frontend/src/features/hangman/pages/TwoPlayerGame.tsx:92-95 | resets the match, navigates to the setup screen, page unchanged |
| TwoPlayerGame.TwoPlayerGamePage.HandleMainMenu | frontend/src/features/hangman/pages/TwoPlayerGame.tsx:97-100 | resets the match, navigates to the main menu, page unchanged |
| TwoPlayerGame.TwoPlayerGamePage.HandleTryAgain | frontend/src/features/hangman/pages/TwoPlayerGame.tsx:127-130 | resets, then starts, the round engine; page unchanged |

## Left out

- The internals of the match context (`TwoPlayerContext`) and of the round engine (`useHangmanGame`): their code is not part of this model. The page's calls on them are recorded but given no meaning, so no lemma states what a score or round number becomes.
- React scheduling: the round-end effect is one event per report of a new status. Re-runs caused by a dependency changing identity while the status is still 'won' are not modelled, because whether they happen depends on the context's code.
- The loading and error screens are render branches driven by the round engine's asynchronous state and are not modelled. Only the "Try Again" handler is kept.
- Presentational components (scoreboard, word display, keyboard, modals) are left out; the model keeps only the props that carry logic.
- `toLowerCase` is modelled on ASCII: other characters are left unchanged, although JavaScript maps them with Unicode case rules. `length` is a count of characters, not of UTF-16 code units.
- `Math.random` and `Math.floor` (floating point) are replaced by the parameter `draw`, an index below the list length, or 0 for an empty list.
- The logger and `Date` are foreign calls. Only whether `logger.info` and `logger.error` throw is kept, as the parameter `LoggerFaults`.
- When the catch block's `logger.error` throws, the exception leaves the handler and goes to the application's error middleware. The model records only that the handler wrote no response (`Escaped`); the middleware's own answer is not modelled.
- The round engine's status type is not part of this model. The page only compares it with 'playing', 'won' and 'lost', so the model has just those three values. Any other value the engine may use, such as a not-started state, would count as a finished round for the keyboard (`!== 'playing'`) and be ignored by the round-end effect.
- Express request parsing: the body is either nullish or an object whose `word` and `guess` are JSON values. Numbers are integers, so NaN (falsy and not a string) is not represented. The guards reject it either way.
- Server start-up, database access, health checks, seeding, routing tables, environment configuration and the single-player pages are wiring or I/O and are not modelled.
