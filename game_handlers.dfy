/**
 * The move buttons of handlers/user_handlers/game_handlers.py: a move pressed
 * while choosing the first hand is recorded and moves the player on to the
 * second hand; a move pressed in any other state is played against the bot.
 */
module GameHandlers {
  import opened Wrappers
  import opened States
  import opened Fsm
  import opened Rules

  const FIRST_HAND: string := "action_for_first_hand"

  /** The two callback handlers, in registration order. */
  datatype GameHandler = OnFirstHand | OnGameButton

  /**
   * The handler a callback with data `data` from `user` reaches: both filter
   * on the data being a move, the first also on the sender's state.
   */
  function GameRoute(cs: Contexts, user: int, data: string): (h: Option<GameHandler>)
    ensures h.Some? <==> data in MOVES
  {
    if data !in MOVES then None
    else if Ctx(cs, user).state == ChoiceActionForFirstHand then Some(OnFirstHand)
    else Some(OnGameButton)
  }

  /** `process_first_hand`'s effect: the move is stored as the first hand and the state advances. */
  function FirstHand(cs: Contexts, user: int, move: string): (r: Contexts)
    ensures Ctx(r, user).state == ChoiceActionForSecondHand
    ensures FIRST_HAND in Ctx(r, user).data && Ctx(r, user).data[FIRST_HAND] == VStr(move)
    ensures forall other | other != user :: Ctx(r, other) == Ctx(cs, other)
  {
    SetStateOf(UpdateDataOf(cs, user, map[FIRST_HAND := VStr(move)]), user, ChoiceActionForSecondHand)
  }

  /** The text of "your choice" / "bot's choice" lines, keyed by the move. */
  function ChoiceLine(key: string, move: string): string
  {
    key + " - " + move
  }

  /** `process_first_hand` fires exactly for a move while choosing the first hand; `process_game_button` for a move in any other state. */
  lemma GameRouteFilters(cs: Contexts, user: int, data: string)
    ensures GameRoute(cs, user, data) == Some(OnFirstHand) <==> data in MOVES && Ctx(cs, user).state == ChoiceActionForFirstHand
    ensures GameRoute(cs, user, data) == Some(OnGameButton) <==> data in MOVES && Ctx(cs, user).state != ChoiceActionForFirstHand
  {
  }

  /** The first hand records the move, leaves the player choosing the second hand, and touches nobody else. */
  lemma FirstHandRecordsMove(cs: Contexts, user: int, move: string)
    ensures Ctx(FirstHand(cs, user, move), user).state == ChoiceActionForSecondHand
    ensures Ctx(FirstHand(cs, user, move), user).data == Ctx(cs, user).data[FIRST_HAND := VStr(move)]
    ensures forall other | other != user :: Ctx(FirstHand(cs, user, move), other) == Ctx(cs, other)
  {
  }

  /**
   * Once the first hand is recorded, a second move press no longer reaches
   * `process_first_hand`: it is played against the bot instead.
   */
  lemma SecondPressIsAGame(cs: Contexts, user: int, first: string, second: string)
    requires first in MOVES && second in MOVES
    requires Ctx(cs, user).state == ChoiceActionForFirstHand
    ensures GameRoute(cs, user, first) == Some(OnFirstHand)
    ensures GameRoute(FirstHand(cs, user, first), user, second) == Some(OnGameButton)
  {
  }

  /** `process_first_hand`. */
  method ProcessFirstHand(storage: Storage, bot: Bot, user: int, move: string)
    requires move in MOVES
    modifies storage, bot
    ensures storage.contexts == FirstHand(old(storage.contexts), user, move)
    ensures bot.log == old(bot.log) + [Sent(user, ChoiceLine("user_choice", move))]
  {
    storage.contexts := UpdateDataOf(storage.contexts, user, map[FIRST_HAND := VStr(move)]);
    bot.log := bot.log + [Sent(user, ChoiceLine("user_choice", move))];
    storage.contexts := SetStateOf(storage.contexts, user, ChoiceActionForSecondHand);
  }

  /**
   * `process_game_button`: the bot draws a move, both moves are reported,
   * then the outcome under the rules. The contexts are not touched.
   */
  method ProcessGameButton(bot: Bot, user: int, move: string) returns (botMove: string, outcome: string)
    requires move in MOVES
    modifies bot
    ensures botMove in MOVES
    ensures GetWinner(move, botMove) == Some(outcome)
    ensures outcome == (if move == botMove then "nobody_won" else if Beats(move, botMove) then "user_won" else "bot_won")
    ensures bot.log == old(bot.log) + [Sent(user, ChoiceLine("user_choice", move)), Sent(user, ChoiceLine("bot_choice", botMove)), Sent(user, outcome)]
  {
    botMove := GetBotChoice();
    bot.log := bot.log + [Sent(user, ChoiceLine("user_choice", move))];
    bot.log := bot.log + [Sent(user, ChoiceLine("bot_choice", botMove))];
    GetWinnerMatchesBeats(move, botMove);
    outcome := GetWinner(move, botMove).value;
    bot.log := bot.log + [Sent(user, outcome)];
  }

  /** The router: the first handler whose filters pass runs; other callbacks change nothing. */
  method Dispatch(storage: Storage, bot: Bot, user: int, data: string)
    returns (fired: Option<GameHandler>, botMove: string, outcome: string)
    modifies storage, bot
    ensures fired == GameRoute(old(storage.contexts), user, data)
    ensures fired == Some(OnFirstHand) ==>
      && storage.contexts == FirstHand(old(storage.contexts), user, data)
      && bot.log == old(bot.log) + [Sent(user, ChoiceLine("user_choice", data))]
    ensures fired == Some(OnGameButton) ==>
      && botMove in MOVES && GetWinner(data, botMove) == Some(outcome)
      && bot.log == old(bot.log) + [Sent(user, ChoiceLine("user_choice", data)), Sent(user, ChoiceLine("bot_choice", botMove)), Sent(user, outcome)]
    ensures fired != Some(OnFirstHand) ==> storage.contexts == old(storage.contexts)
    ensures fired.None? ==> bot.log == old(bot.log)
  {
    fired := GameRoute(storage.contexts, user, data);
    botMove, outcome := "", "";
    match fired
    case None =>
    case Some(OnFirstHand) => ProcessFirstHand(storage, bot, user, data);
    case Some(OnGameButton) =>
      botMove, outcome := ProcessGameButton(bot, user, data);
  }
}
