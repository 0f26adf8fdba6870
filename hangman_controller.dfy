/**
 * The HTTP handlers of the hangman server
 * (server/src/controllers/hangmanController.ts), each as a total function
 * from the request to the one response it writes.
 *
 * The JSON body fields are JavaScript values; `JsValue` keeps the kinds the
 * guards distinguish (truthiness and `typeof`). Logging is a foreign call:
 * whether `logger.info` and `logger.error` throw is a parameter (`LoggerFaults`).
 */
module HangmanController {
  import opened Wrappers
  import opened HangmanService

  /** A JavaScript value as read from a parsed JSON request body. */
  datatype JsValue =
    | Undefined
    | Null
    | Boolean(b: bool)
    | Number(n: int)
    | Str(s: string)
    | Object

  /** `!v`: the falsy values. */
  predicate Falsy(v: JsValue)
  {
    match v
    case Undefined => true
    case Null => true
    case Boolean(b) => !b
    case Number(n) => n == 0
    case Str(s) => s == ""
    case Object => false
  }

  /** `typeof v === 'string'`. */
  predicate IsString(v: JsValue) { v.Str? }

  /**
   * `req.body`: absent (`undefined` or `null`, whose destructuring throws a
   * TypeError) or an object whose `word` and `guess` properties are read.
   */
  datatype RequestBody = Nullish | Fields(word: JsValue, guess: JsValue)

  /** The JSON payloads the handlers send. */
  datatype Payload =
    | ErrorPayload(error: string)                  // { success: false, error }
    | GuessPayload(data: ValidateGuessResult)      // { success: true, data }
    | WordPayload(word: string, length: nat)       // { success: true, data: { word, length } }

  /** One response: the status code and the JSON payload. */
  datatype Response = Response(status: int, payload: Payload)
  {
    /** The `success` field of the payload. */
    predicate Success() { !payload.ErrorPayload? }
  }

  /**
   * What a handler does with a request: it sends one response, or an
   * exception leaves it (its `catch` block threw too) and goes on to the
   * application's error middleware, which is not part of this model.
   */
  datatype Outcome = Sent(response: Response) | Escaped

  /**
   * The logger is a foreign call: whether `logger.info` and whether
   * `logger.error` throw on this request.
   */
  datatype LoggerFaults = LoggerFaults(infoThrows: bool, errorThrows: bool)

  /** The `catch` block: log the error, then send a 500 with the given message. */
  function Catch(logger: LoggerFaults, message: string): (r: Outcome)
    ensures r.Sent? <==> !logger.errorThrows
    ensures r.Sent? ==> r.response == Response(500, ErrorPayload(message))
  {
    if logger.errorThrows then Escaped else Sent(Response(500, ErrorPayload(message)))
  }

  const WordRequired := "Word is required and must be a string"
  const GuessSingleCharacter := "Guess is required and must be a single character"
  const GuessMustBeLetter := "Guess must be a letter (a-z)"
  const FailedToValidate := "Failed to validate guess"
  const FailedToGenerate := "Failed to generate word"

  /** The test `/^[a-zA-Z]$/` on a one-character string. */
  predicate IsAsciiLetter(c: char) { IsUpper(c) || IsLower(c) }

  /** The first guard: `!word || typeof word !== 'string'`. */
  predicate WordRejected(word: JsValue) { Falsy(word) || !IsString(word) }

  /** The second guard: `!guess || typeof guess !== 'string' || guess.length !== 1`. */
  predicate GuessRejected(guess: JsValue) { Falsy(guess) || !IsString(guess) || |guess.s| != 1 }

  /**
   * `validateGuess`: the guard chain, the oracle call and the catch-all.
   * The guards respond without logging; the body destructuring and the
   * success-path `logger.info` are what can throw.
   */
  function HandleValidateGuess(body: RequestBody, logger: LoggerFaults): (r: Outcome)
    ensures r.Sent? ==> r.response.status in {200, 400, 500}
    ensures r.Sent? ==> (r.response.Success() <==> r.response.status == 200)
    ensures r.Escaped? ==> logger.errorThrows
  {
    match body
    case Nullish => Catch(logger, FailedToValidate)
    case Fields(word, guess) =>
      if WordRejected(word) then
        Sent(Response(400, ErrorPayload(WordRequired)))
      else if GuessRejected(guess) then
        Sent(Response(400, ErrorPayload(GuessSingleCharacter)))
      else if !IsAsciiLetter(guess.s[0]) then
        Sent(Response(400, ErrorPayload(GuessMustBeLetter)))
      else
        var result := ValidateGuessSpec(word.s, guess.s);
        if logger.infoThrows then Catch(logger, FailedToValidate)
        else Sent(Response(200, GuessPayload(result)))
  }

  /** The word guard, stated directly: it rejects everything but a non-empty string. */
  lemma WordGuard(word: JsValue)
    ensures WordRejected(word) <==> !(word.Str? && |word.s| > 0)
  {
  }

  /** The guess guard, stated directly: it rejects everything but a one-character string. */
  lemma GuessGuard(guess: JsValue)
    ensures GuessRejected(guess) <==> !(guess.Str? && |guess.s| == 1)
  {
  }

  /** A bad word is reported first, whatever the guess is and whatever the logger does. */
  lemma WordErrorWins(word: JsValue, guess: JsValue, logger: LoggerFaults)
    requires !(word.Str? && |word.s| > 0)
    ensures HandleValidateGuess(Fields(word, guess), logger) == Sent(Response(400, ErrorPayload(WordRequired)))
  {
    WordGuard(word);
  }

  /** With a valid word, a guess that is not a one-character string is reported next. */
  lemma GuessErrorSecond(w: string, guess: JsValue, logger: LoggerFaults)
    requires |w| > 0
    requires !(guess.Str? && |guess.s| == 1)
    ensures HandleValidateGuess(Fields(Str(w), guess), logger)
         == Sent(Response(400, ErrorPayload(GuessSingleCharacter)))
  {
    GuessGuard(guess);
  }

  /** With a valid word, a one-character guess outside `[a-zA-Z]` is reported last. */
  lemma LetterErrorThird(w: string, c: char, logger: LoggerFaults)
    requires |w| > 0 && !IsAsciiLetter(c)
    ensures HandleValidateGuess(Fields(Str(w), Str([c])), logger)
         == Sent(Response(400, ErrorPayload(GuessMustBeLetter)))
  {
  }

  /** The predicate "every guard passes", stated without the JavaScript coercions. */
  predicate WellFormed(body: RequestBody)
  {
    && body.Fields?
    && body.word.Str? && |body.word.s| > 0
    && body.guess.Str? && |body.guess.s| == 1
    && IsAsciiLetter(body.guess.s[0])
  }

  /**
   * The oracle's answer is sent exactly when every guard passes and
   * `logger.info` does not throw, and then the payload is the oracle's
   * result unchanged.
   */
  lemma OracleReachedOnlyWhenValid(body: RequestBody, logger: LoggerFaults)
    ensures var r := HandleValidateGuess(body, logger);
      && (r.Sent? && r.response.status == 200 <==> WellFormed(body) && !logger.infoThrows)
      && (r.Sent? && r.response.status == 200 ==>
            r.response.payload == GuessPayload(ValidateGuessSpec(body.word.s, body.guess.s)))
  {
    if body.Fields? {
      WordGuard(body.word);
      GuessGuard(body.guess);
    }
  }

  /** An exception is raised inside the handler: the body cannot be destructured, or `logger.info` throws. */
  predicate ThrowsInside(body: RequestBody, logger: LoggerFaults)
  {
    body.Nullish? || (WellFormed(body) && logger.infoThrows)
  }

  /**
   * An exception inside the handler gives a 500 "Failed to validate guess"
   * when the `catch` block's `logger.error` succeeds, and leaves the
   * handler with no response written when that throws too; nothing else
   * gives either.
   */
  lemma ServerErrorOnException(body: RequestBody, logger: LoggerFaults)
    ensures var r := HandleValidateGuess(body, logger);
      && (r == Sent(Response(500, ErrorPayload(FailedToValidate))) <==> ThrowsInside(body, logger) && !logger.errorThrows)
      && (r.Escaped? <==> ThrowsInside(body, logger) && logger.errorThrows)
      && (r.Sent? && r.response.status == 500 ==> r.response.payload == ErrorPayload(FailedToValidate))
  {
    if body.Fields? {
      WordGuard(body.word);
      GuessGuard(body.guess);
    }
  }

  /**
   * What a 200 response tells the client: the positions are exactly the
   * indices of the word holding the guessed letter in either case, in
   * ascending order, and `isCorrect` says whether there is one.
   */
  lemma SuccessfulGuessMeaning(body: RequestBody, logger: LoggerFaults, i: nat)
    requires HandleValidateGuess(body, logger).Sent?
    requires HandleValidateGuess(body, logger).response.status == 200
    ensures var word, letter := body.word.s, body.guess.s[0];
      var data := HandleValidateGuess(body, logger).response.payload.data;
      && (i in data.positions <==> i < |word| && ToLower(word[i]) == ToLower(letter))
      && StrictlyIncreasing(data.positions)
      && (data.isCorrect <==> exists j :: 0 <= j < |word| && ToLower(word[j]) == ToLower(letter))
  {
    OracleReachedOnlyWhenValid(body, logger);
    ValidateGuessPositions(body.word.s, body.guess.s, i);
    ValidateGuessShape(body.word.s, body.guess.s);
  }

  /**
   * `getWord`. Reading `word.length` of `undefined` (an empty word list)
   * throws inside the handler, as does a throwing `logger.info`.
   */
  function HandleGetWord(wordList: seq<string>, draw: nat, logger: LoggerFaults): (r: Outcome)
    requires draw == 0 || draw < |wordList|
    ensures r.Sent? && r.response.status == 200 ==>
      r.response.payload.WordPayload? && r.response.payload.length == |r.response.payload.word|
  {
    match GetRandomWord(wordList, draw)
    case None => Catch(logger, FailedToGenerate)
    case Some(word) =>
      if logger.infoThrows then Catch(logger, FailedToGenerate)
      else Sent(Response(200, WordPayload(word, |word|)))
  }

  /**
   * The `getWord` outcomes: a 200 carrying a word of the list whenever the
   * list is non-empty and `logger.info` does not throw; otherwise a 500
   * "Failed to generate word", or no response at all when the `catch`
   * block's `logger.error` throws too.
   */
  lemma GetWordPayload(wordList: seq<string>, draw: nat, logger: LoggerFaults)
    requires draw == 0 || draw < |wordList|
    ensures var r := HandleGetWord(wordList, draw, logger);
      && (r.Sent? && r.response.status == 200 <==> |wordList| > 0 && !logger.infoThrows)
      && (r.Sent? && r.response.status == 200 ==> r.response.payload.word in wordList)
      && (r == Sent(Response(500, ErrorPayload(FailedToGenerate))) <==> (|wordList| == 0 || logger.infoThrows) && !logger.errorThrows)
      && (r.Escaped? <==> (|wordList| == 0 || logger.infoThrows) && logger.errorThrows)
  {
  }
}
