/**
 * The two-player page controller
 * (frontend/src/features/hangman/pages/TwoPlayerGame.tsx).
 *
 * The page owns two pieces of state, the phase and the captured result of
 * the previous round. Everything else it reads from two collaborators whose
 * code is not part of this model: the match context (players, scores, whose
 * turn, round number) and the round engine (status, word, attempts). Their
 * snapshots are inputs here, and the calls the page makes on them
 * (`incrementScore`, `switchPlayer`, `incrementRound`, `resetGame`,
 * `resetHangmanGame`, `startGame`) and on the router (`navigate`) are
 * recorded, in order, as a trace of `Call`s.
 */
module TwoPlayerGame {
  import opened Wrappers

  /** `GamePhase`: 'playing' | 'transition' | 'ended'. */
  datatype GamePhase = Playing | Transition | Ended

  /** The round engine's `gameStatus`: 'playing' (here `InProgress`), 'won' or 'lost'. */
  datatype GameStatus = InProgress | Won | Lost

  /** `currentPlayer` of the match context: 1 or 2. */
  type PlayerNumber = n: int | n == 1 || n == 2 witness 1

  datatype Player = Player(name: string, score: int)

  /** The match context's `state`, as the page reads it. */
  datatype TwoPlayerState = TwoPlayerState(
    player1: Player, player2: Player, currentPlayer: PlayerNumber, roundNumber: int)

  /** The fields of the round engine's `gameState` that the page reads. */
  datatype RoundView = RoundView(
    gameStatus: GameStatus, word: string, maxAttempts: int, wrongGuesses: int)

  /** `previousResult` when it is not null. */
  datatype RoundResult = RoundResult(won: bool, playerName: string, word: string)

  /** A call the page makes on a collaborator. */
  datatype Call =
    | IncrementScore(player: PlayerNumber)   // match context
    | SwitchPlayer                           // match context
    | IncrementRound                         // match context
    | ResetTwoPlayerGame                     // match context `resetGame`
    | ResetHangmanGame                       // round engine `resetGame`
    | StartGame                              // round engine
    | Navigate(path: string)                 // router

  /** The page's own state. */
  datatype PageState = PageState(gamePhase: GamePhase, previousResult: Option<RoundResult>)

  /** What happens to the page: the effects that run and the buttons that are clicked. */
  datatype Event =
    | Mount                                                  // the start-on-mount effect
    | RoundStatusChanged(round: RoundView, players: TwoPlayerState)  // the round-end effect
    | Continue                                               // handleContinue
    | EndGame                                                // handleEndGame
    | PlayAgain                                              // handlePlayAgain
    | MainMenu                                               // handleMainMenu
    | TryAgain                                               // the error screen's "Try Again"

  /** The page state after an event, and the calls the event made, in order. */
  datatype Step = Step(page: PageState, calls: seq<Call>)

  const SetupPath := "/hangman/two-player/setup"
  const MenuPath := "/hangman"

  /** The state the page is mounted with. */
  const InitialPage := PageState(Playing, None)

  // ---------------------------------------------------------------------
  // Player selectors

  /** The player with the given number: the reference the selectors are checked against. */
  function PlayerName(s: TwoPlayerState, n: PlayerNumber): string
  {
    if n == 1 then s.player1.name else s.player2.name
  }

  /** The other player. */
  function Other(n: PlayerNumber): (m: PlayerNumber)
    ensures m != n
  {
    3 - n
  }

  /** `getCurrentPlayerName`: the name of the player whose turn it is. */
  function CurrentPlayerName(s: TwoPlayerState): (r: string)
    ensures r == PlayerName(s, s.currentPlayer)
  {
    if s.currentPlayer == 1 then s.player1.name else s.player2.name
  }

  /** `getNextPlayerName`: the name of the other player. */
  function NextPlayerName(s: TwoPlayerState): (r: string)
    ensures r == PlayerName(s, Other(s.currentPlayer))
  {
    if s.currentPlayer == 1 then s.player2.name else s.player1.name
  }

  /**
   * The next player is the one who is current once the turn has passed,
   * and with distinct names the two selectors never agree.
   */
  lemma SelectorsPickOppositePlayers(s: TwoPlayerState)
    ensures NextPlayerName(s) == CurrentPlayerName(s.(currentPlayer := Other(s.currentPlayer)))
    ensures s.player1.name != s.player2.name ==> NextPlayerName(s) != CurrentPlayerName(s)
  {
  }

  // ---------------------------------------------------------------------
  // The page's reactions, as values

  /** The start-on-mount effect. */
  function OnMount(page: PageState): Step
  {
    Step(page, [StartGame])
  }

  /**
   * The round-end effect: on 'won' or 'lost' it awards the point (only on
   * 'won'), captures the result and shows the transition; otherwise it does
   * nothing.
   */
  function OnRoundStatus(page: PageState, round: RoundView, players: TwoPlayerState): Step
  {
    if round.gameStatus == Won || round.gameStatus == Lost then
      var currentPlayerName := CurrentPlayerName(players);
      var awarded := if round.gameStatus == Won then [IncrementScore(players.currentPlayer)] else [];
      Step(PageState(Transition, Some(RoundResult(round.gameStatus == Won, currentPlayerName, round.word))),
           awarded)
    else
      Step(page, [])
  }

  /** `handleContinue`. */
  function OnContinue(page: PageState): Step
  {
    Step(PageState(Playing, None), [SwitchPlayer, IncrementRound, ResetHangmanGame, StartGame])
  }

  /** `handleEndGame`. */
  function OnEndGame(page: PageState): Step
  {
    Step(page.(gamePhase := Ended), [])
  }

  /** `handlePlayAgain`. */
  function OnPlayAgain(page: PageState): Step
  {
    Step(page, [ResetTwoPlayerGame, Navigate(SetupPath)])
  }

  /** `handleMainMenu`. */
  function OnMainMenu(page: PageState): Step
  {
    Step(page, [ResetTwoPlayerGame, Navigate(MenuPath)])
  }

  /** The error screen's "Try Again" button. */
  function OnTryAgain(page: PageState): Step
  {
    Step(page, [ResetHangmanGame, StartGame])
  }

  function Handle(page: PageState, e: Event): Step
  {
    match e
    case Mount => OnMount(page)
    case RoundStatusChanged(round, players) => OnRoundStatus(page, round, players)
    case Continue => OnContinue(page)
    case EndGame => OnEndGame(page)
    case PlayAgain => OnPlayAgain(page)
    case MainMenu => OnMainMenu(page)
    case TryAgain => OnTryAgain(page)
  }

  /** A sequence of events, one after the other: the final page and every call made. */
  function Run(page: PageState, events: seq<Event>): Step
    decreases |events|
  {
    if events == [] then Step(page, [])
    else
      var before := Run(page, events[..|events| - 1]);
      var last := Handle(before.page, events[|events| - 1]);
      Step(last.page, before.calls + last.calls)
  }

  /** Running one more event extends the run by that event's step. */
  lemma RunSnoc(page: PageState, events: seq<Event>, e: Event)
    ensures var r := Run(page, events); var s := Handle(r.page, e);
      Run(page, events + [e]) == Step(s.page, r.calls + s.calls)
  {
    assert (events + [e])[..|events|] == events;
  }

  // ---------------------------------------------------------------------
  // Properties of single events

  /**
   * The round-end effect on 'won' or 'lost': a won round makes exactly one
   * call, the point for the current player, and a lost round makes none; the
   * captured result records the outcome, the current player's name and the
   * word; and the phase becomes 'transition' whatever it was before.
   */
  lemma RoundEndRecordsOutcome(page: PageState, round: RoundView, players: TwoPlayerState)
    requires round.gameStatus == Won || round.gameStatus == Lost
    ensures var step := OnRoundStatus(page, round, players);
      && (forall n: PlayerNumber :: IncrementScore(n) in step.calls <==> round.gameStatus == Won && n == players.currentPlayer)
      && (round.gameStatus == Won ==> step.calls == [IncrementScore(players.currentPlayer)])
      && (round.gameStatus == Lost ==> step.calls == [])
      && step.page.gamePhase == Transition
      && step.page.previousResult
         == Some(RoundResult(round.gameStatus == Won, PlayerName(players, players.currentPlayer), round.word))
  {
  }

  /** While the round is still being played, the round-end effect changes nothing and calls nothing. */
  lemma RoundInProgressIgnored(page: PageState, round: RoundView, players: TwoPlayerState)
    requires round.gameStatus == InProgress
    ensures OnRoundStatus(page, round, players) == Step(page, [])
  {
  }

  /**
   * `handleContinue` passes the turn before it bumps the round, resets the
   * round engine before it starts it, and leaves the page back in 'playing'
   * with no captured result, i.e. the state it is mounted with.
   */
  lemma ContinueOrder(page: PageState)
    ensures var step := OnContinue(page);
      && step.page == InitialPage
      && |step.calls| == 4
      && step.calls[0] == SwitchPlayer && step.calls[1] == IncrementRound
      && step.calls[2] == ResetHangmanGame && step.calls[3] == StartGame
  {
  }

  /** `handleEndGame` moves to 'ended' from any phase, calls nothing and keeps the captured result. */
  lemma EndGameFromAnyPhase(page: PageState)
    ensures var step := OnEndGame(page);
      step.page.gamePhase == Ended && step.page.previousResult == page.previousResult && step.calls == []
  {
  }

  /**
   * "Play again" and "main menu" both reset the match and change nothing
   * on the page; they differ only in where they navigate.
   */
  lemma PlayAgainAndMainMenuDifferInTarget(page: PageState)
    ensures var again, menu := OnPlayAgain(page), OnMainMenu(page);
      && again.page == page && menu.page == page
      && |again.calls| == |menu.calls| == 2
      && again.calls[0] == menu.calls[0] == ResetTwoPlayerGame
      && again.calls[1] == Navigate(SetupPath) && menu.calls[1] == Navigate(MenuPath)
      && again.calls[1] != menu.calls[1]
  {
  }

  /**
   * The phase 'ended' is not closed under the round-end effect: a round that
   * finishes after "End Game" moves the page back to 'transition'.
   */
  lemma RoundEndAfterEndGame(page: PageState, round: RoundView, players: TwoPlayerState)
    requires round.gameStatus == Won
    ensures OnRoundStatus(OnEndGame(page).page, round, players).page.gamePhase == Transition
  {
  }

  // ---------------------------------------------------------------------
  // The page invariant

  /** 'playing' has no captured result and 'transition' always has one. */
  predicate PageInvariant(page: PageState)
  {
    && (page.gamePhase == Playing ==> page.previousResult == None)
    && (page.gamePhase == Transition ==> page.previousResult.Some?)
  }

  lemma HandlePreservesInvariant(page: PageState, e: Event)
    requires PageInvariant(page)
    ensures PageInvariant(Handle(page, e).page)
  {
  }

  /** The page invariant holds after any sequence of events from the initial page. */
  lemma {:induction false} RunPreservesInvariant(page: PageState, events: seq<Event>)
    requires PageInvariant(page)
    ensures PageInvariant(Run(page, events).page)
    decreases |events|
  {
    if events != [] {
      var front := events[..|events| - 1];
      RunPreservesInvariant(page, front);
      HandlePreservesInvariant(Run(page, front).page, events[|events| - 1]);
    }
  }

  // ---------------------------------------------------------------------
  // Scores and turns over a whole match

  /** The number of round-end events in which player `n` was current and the round was won. */
  function WinsOf(events: seq<Event>, n: PlayerNumber): nat
    decreases |events|
  {
    if events == [] then 0
    else
      var e := events[|events| - 1];
      WinsOf(events[..|events| - 1], n)
      + (if e.RoundStatusChanged? && e.round.gameStatus == Won && e.players.currentPlayer == n then 1 else 0)
  }

  /** The number of "Continue" clicks. */
  function Continues(events: seq<Event>): nat
    decreases |events|
  {
    if events == [] then 0
    else Continues(events[..|events| - 1]) + (if events[|events| - 1].Continue? then 1 else 0)
  }

  /**
   * Over any sequence of events, each player is awarded exactly as many
   * points as rounds they won while current: a lost round, "End Game" and
   * every other event award none.
   */
  lemma {:induction false} ScoreCallsCountWins(page: PageState, events: seq<Event>, n: PlayerNumber)
    ensures multiset(Run(page, events).calls)[IncrementScore(n)] == WinsOf(events, n)
    decreases |events|
  {
    if events != [] {
      var front := events[..|events| - 1];
      var before := Run(page, front);
      var last := Handle(before.page, events[|events| - 1]);
      ScoreCallsCountWins(page, front, n);
      StepScoreCalls(before.page, events[|events| - 1], n);
      assert multiset(before.calls + last.calls) == multiset(before.calls) + multiset(last.calls);
    }
  }

  /** One event awards player `n` a point exactly when it is a won round with `n` current. */
  lemma StepScoreCalls(page: PageState, e: Event, n: PlayerNumber)
    ensures multiset(Handle(page, e).calls)[IncrementScore(n)]
         == if e.RoundStatusChanged? && e.round.gameStatus == Won && e.players.currentPlayer == n then 1 else 0
  {
    match e
    case RoundStatusChanged(round, players) =>
      if round.gameStatus == Won {
        assert Handle(page, e).calls == [IncrementScore(players.currentPlayer)];
      }
    case _ =>
  }

  /** One event passes the turn, and bumps the round, exactly when it is "Continue". */
  lemma StepTurnCalls(page: PageState, e: Event)
    ensures var m := multiset(Handle(page, e).calls);
      m[SwitchPlayer] == m[IncrementRound] == if e.Continue? then 1 else 0
  {
    match e
    case Continue =>
      assert multiset(Handle(page, e).calls) == multiset{SwitchPlayer, IncrementRound, ResetHangmanGame, StartGame};
    case _ =>
  }

  /**
   * Over any sequence of events, the turn passes and the round number is
   * bumped exactly once per "Continue", and never otherwise.
   */
  lemma {:induction false} TurnCallsCountContinues(page: PageState, events: seq<Event>)
    ensures var calls := Run(page, events).calls;
      && multiset(calls)[SwitchPlayer] == Continues(events)
      && multiset(calls)[IncrementRound] == Continues(events)
    decreases |events|
  {
    if events != [] {
      var front := events[..|events| - 1];
      var before := Run(page, front);
      var last := Handle(before.page, events[|events| - 1]);
      TurnCallsCountContinues(page, front);
      StepTurnCalls(before.page, events[|events| - 1]);
      assert multiset(before.calls + last.calls) == multiset(before.calls) + multiset(last.calls);
    }
  }

  /** "End Game" at the end of any sequence of events adds no call and leaves the page 'ended'. */
  lemma EndGameAddsNoCall(page: PageState, events: seq<Event>)
    ensures Run(page, events + [EndGame]).calls == Run(page, events).calls
    ensures Run(page, events + [EndGame]).page.gamePhase == Ended
  {
    RunSnoc(page, events, EndGame);
    assert Run(page, events).calls + [] == Run(page, events).calls;
  }

  // ---------------------------------------------------------------------
  // What the page shows

  /** The round-transition modal, rendered only when a result is captured. */
  datatype TransitionView = TransitionView(
    isOpen: bool, previousPlayerWon: bool, previousPlayerName: string, nextPlayerName: string, word: string)

  /** The parts of the rendered page that carry logic. */
  datatype View = View(
    bannerName: string,                 // "Now Playing"
    roundPanelShown: bool,              // word, attempts, used letters and keyboard
    remainingAttempts: int,
    keyboardDisabled: bool,
    transition: Option<TransitionView>,
    finalScoreOpen: bool)

  /** `isRoundOver`. */
  function IsRoundOver(status: GameStatus): bool
  {
    status != InProgress
  }

  /** `remainingAttempts`. */
  function RemainingAttempts(round: RoundView): int
  {
    round.maxAttempts - round.wrongGuesses
  }

  /** The render, after the loading and error screens have been passed. */
  function Render(page: PageState, round: RoundView, players: TwoPlayerState): View
  {
    View(
      CurrentPlayerName(players),
      round.word != "",
      RemainingAttempts(round),
      IsRoundOver(round.gameStatus),
      match page.previousResult
      case None => None
      case Some(r) => Some(TransitionView(page.gamePhase == Transition, r.won, r.playerName,
                                         NextPlayerName(players), r.word)),
      page.gamePhase == Ended)
  }

  /** Whether the round-transition modal is on screen. */
  predicate TransitionOpen(v: View)
  {
    v.transition.Some? && v.transition.value.isOpen
  }

  /**
   * The keyboard is disabled exactly when the round is not being played
   * (it is rendered only while `roundPanelShown`, i.e. the word is non-empty),
   * and the attempts shown count down from the maximum by the wrong guesses:
   * within `0..maxAttempts` while the engine keeps its bound.
   */
  lemma KeyboardAndAttempts(page: PageState, round: RoundView, players: TwoPlayerState)
    ensures var v := Render(page, round, players);
      && (v.keyboardDisabled <==> round.gameStatus != InProgress)
      && v.remainingAttempts + round.wrongGuesses == round.maxAttempts
      && (0 <= round.wrongGuesses <= round.maxAttempts ==> 0 <= v.remainingAttempts <= round.maxAttempts)
  {
  }

  /**
   * The transition modal is open only in 'transition' with a captured
   * result, the final-score modal exactly in 'ended', so never both; under
   * the page invariant the transition modal is open exactly in 'transition'.
   */
  lemma ModalsFollowPhase(page: PageState, round: RoundView, players: TwoPlayerState)
    ensures var v := Render(page, round, players);
      && (TransitionOpen(v) <==> page.gamePhase == Transition && page.previousResult.Some?)
      && (v.finalScoreOpen <==> page.gamePhase == Ended)
      && !(TransitionOpen(v) && v.finalScoreOpen)
      && (PageInvariant(page) ==> (TransitionOpen(v) <==> page.gamePhase == Transition))
  {
  }

  /**
   * Right after a round ends, the keyboard is disabled and the transition
   * modal is open, naming the player who just played (the one in the
   * banner), the outcome, the word and the other player as next.
   */
  lemma RenderAfterRoundEnd(page: PageState, round: RoundView, players: TwoPlayerState)
    requires round.gameStatus == Won || round.gameStatus == Lost
    ensures var v := Render(OnRoundStatus(page, round, players).page, round, players);
      && v.keyboardDisabled && TransitionOpen(v) && !v.finalScoreOpen
      && v.transition.value.previousPlayerName == v.bannerName == PlayerName(players, players.currentPlayer)
      && v.transition.value.nextPlayerName == PlayerName(players, Other(players.currentPlayer))
      && v.transition.value.previousPlayerWon == (round.gameStatus == Won)
      && v.transition.value.word == round.word
  {
    SelectorsPickOppositePlayers(players);
  }

  /** After "Continue" no modal is shown; after "End Game" only the final score is. */
  lemma RenderAfterHandlers(page: PageState, round: RoundView, players: TwoPlayerState)
    ensures var v := Render(OnContinue(page).page, round, players);
      v.transition == None && !v.finalScoreOpen
    ensures var v := Render(OnEndGame(page).page, round, players);
      v.finalScoreOpen && !TransitionOpen(v)
  {
  }

  // ---------------------------------------------------------------------
  // The component

  /**
   * The page component: its two state variables, the calls it has made so
   * far, and (ghost) the events that happened to it.
   */
  class TwoPlayerGamePage {
    var gamePhase: GamePhase
    var previousResult: Option<RoundResult>
    var calls: seq<Call>
    ghost var history: seq<Event>

    function Page(): PageState
      reads this
    {
      PageState(gamePhase, previousResult)
    }

    /** The state and the calls are those of running the history from mount. */
    ghost predicate Valid()
      reads this
    {
      Run(InitialPage, history) == Step(Page(), calls)
    }

    lemma ValidKeepsPageInvariant()
      requires Valid()
      ensures PageInvariant(Page())
    {
      RunPreservesInvariant(InitialPage, history);
    }

    /** `useState('playing')` and `useState(null)`. */
    constructor ()
      ensures Valid()
      ensures gamePhase == Playing && previousResult == None && calls == [] && history == []
    {
      gamePhase := Playing;
      previousResult := None;
      calls := [];
      history := [];
    }

    /** The start-on-mount effect: `startGame()`. */
    method MountEffect()
      requires Valid()
      modifies this
      ensures Valid() && history == old(history) + [Mount]
      ensures Page() == old(Page()) && calls == old(calls) + [StartGame]
    {
      ghost var h := history;
      calls := calls + [StartGame];
      history := history + [Mount];
      RunSnoc(InitialPage, h, Mount);
    }

    /**
     * The round-end effect, run once when the round engine reports a new
     * status: on 'won' or 'lost' it awards the point (on 'won' only),
     * captures the result and shows the transition.
     */
    method RoundEndEffect(round: RoundView, players: TwoPlayerState)
      requires Valid()
      modifies this
      ensures Valid() && history == old(history) + [RoundStatusChanged(round, players)]
      ensures var step := OnRoundStatus(old(Page()), round, players);
        Page() == step.page && calls == old(calls) + step.calls
    {
      ghost var h, c := history, calls;
      if round.gameStatus == Won || round.gameStatus == Lost {
        var currentPlayerName := CurrentPlayerName(players);
        if round.gameStatus == Won {
          calls := calls + [IncrementScore(players.currentPlayer)];
        }
        previousResult := Some(RoundResult(round.gameStatus == Won, currentPlayerName, round.word));
        gamePhase := Transition;
      }
      history := history + [RoundStatusChanged(round, players)];
      RunSnoc(InitialPage, h, RoundStatusChanged(round, players));
    }

    /** `handleContinue`. */
    method HandleContinue()
      requires Valid()
      modifies this
      ensures Valid() && history == old(history) + [Continue]
      ensures Page() == InitialPage
      ensures calls == old(calls) + [SwitchPlayer, IncrementRound, ResetHangmanGame, StartGame]
    {
      ghost var h := history;
      calls := calls + [SwitchPlayer];
      calls := calls + [IncrementRound];
      calls := calls + [ResetHangmanGame];
      calls := calls + [StartGame];
      gamePhase := Playing;
      previousResult := None;
      history := history + [Continue];
      RunSnoc(InitialPage, h, Continue);
    }

    /** `handleEndGame`. */
    method HandleEndGame()
      requires Valid()
      modifies this
      ensures Valid() && history == old(history) + [EndGame]
      ensures gamePhase == Ended && previousResult == old(previousResult) && calls == old(calls)
    {
      ghost var h := history;
      gamePhase := Ended;
      history := history + [EndGame];
      RunSnoc(InitialPage, h, EndGame);
    }

    /** `handlePlayAgain`. */
    method HandlePlayAgain()
      requires Valid()
      modifies this
      ensures Valid() && history == old(history) + [PlayAgain]
      ensures Page() == old(Page()) && calls == old(calls) + [ResetTwoPlayerGame, Navigate(SetupPath)]
    {
      ghost var h := history;
      calls := calls + [ResetTwoPlayerGame];
      calls := calls + [Navigate(SetupPath)];
      history := history + [PlayAgain];
      RunSnoc(InitialPage, h, PlayAgain);
    }

    /** `handleMainMenu`. */
    method HandleMainMenu()
      requires Valid()
      modifies this
      ensures Valid() && history == old(history) + [MainMenu]
      ensures Page() == old(Page()) && calls == old(calls) + [ResetTwoPlayerGame, Navigate(MenuPath)]
    {
      ghost var h := history;
      calls := calls + [ResetTwoPlayerGame];
      calls := calls + [Navigate(MenuPath)];
      history := history + [MainMenu];
      RunSnoc(InitialPage, h, MainMenu);
    }

    /** The error screen's "Try Again": reset the round engine, then start it. */
    method HandleTryAgain()
      requires Valid()
      modifies this
      ensures Valid() && history == old(history) + [TryAgain]
      ensures Page() == old(Page()) && calls == old(calls) + [ResetHangmanGame, StartGame]
    {
      ghost var h := history;
      calls := calls + [ResetHangmanGame];
      calls := calls + [StartGame];
      history := history + [TryAgain];
      RunSnoc(InitialPage, h, TryAgain);
    }
  }
}
