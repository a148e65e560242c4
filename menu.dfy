/**
 * The menu router of bot/src/handlers/user_handlers/menu_handlers.py: the
 * state-filtered transitions from /start to a matched pair of players. Each
 * handler works on the sender's context (and, in matchmaking, on the
 * opponent's) and answers in the sender's chat.
 */
module Menu {
  import opened Wrappers
  import opened States
  import opened Fsm
  import opened Presence

  /** The texts of the two reply-keyboard buttons (`yes_button`, `no_button`). */
  const YES_BUTTON: string := "Давай!"
  const NO_BUTTON: string := "Не хочу!"

  const OPPONENT_ID: string := "opponent_id"

  /** An incoming update: a chat message or an inline-button callback, with its sender. */
  datatype Update = Message(from: int, text: string) | Callback(from: int, data: string)

  /** The handlers, in the order they are registered on the router. */
  datatype Handler = OnStart | OnHelp | OnYes | OnNo | OnQuickGame | OnMatchmaking

  /**
   * The handler the router runs for an update: the first registered one
   * whose filters pass, or None when no menu handler matches.
   */
  function Route(cs: Contexts, u: Update): (h: Option<Handler>)
    ensures h.Some? && h.value in {OnStart, OnHelp, OnYes, OnNo} ==> u.Message?
    ensures h.Some? && h.value in {OnQuickGame, OnMatchmaking} ==> u.Callback?
  {
    match u
    case Message(from, text) =>
      if text == "/start" then Some(OnStart)
      else if text == "/help" then Some(OnHelp)
      else if text == YES_BUTTON && Ctx(cs, from).state == GameConsent then Some(OnYes)
      else if text == NO_BUTTON && Ctx(cs, from).state == GameConsent then Some(OnNo)
      else None
    case Callback(from, data) =>
      if data == "quick_game" && Ctx(cs, from).state == ChoiceGameMode then Some(OnQuickGame)
      else if data == "matchmaking" && Ctx(cs, from).state == QuickGame then Some(OnMatchmaking)
      else None
  }

  /**
   * Matchmaking's effect on the contexts, given the opponent picked (None:
   * nobody else online). With an opponent: both wait for the game to start
   * and each records the other as `opponent_id`; without: the requester is cleared.
   */
  function Matched(cs: Contexts, user: int, pick: Option<int>): (r: Contexts)
    ensures pick.None? ==> Ctx(r, user) == Blank
    ensures pick.Some? && pick.value != user ==>
      && Ctx(r, user).state == WaitingGameStart && OPPONENT_ID in Ctx(r, user).data && Ctx(r, user).data[OPPONENT_ID] == VInt(pick.value)
      && Ctx(r, pick.value).state == WaitingGameStart && OPPONENT_ID in Ctx(r, pick.value).data && Ctx(r, pick.value).data[OPPONENT_ID] == VInt(user)
    ensures forall other | other != user && (pick.None? || other != pick.value) :: Ctx(r, other) == Ctx(cs, other)
  {
    match pick
    case None => ClearOf(cs, user)
    case Some(o) =>
      var waiting := SetStateOf(SetStateOf(cs, o, WaitingGameStart), user, WaitingGameStart);
      UpdateDataOf(UpdateDataOf(waiting, user, map[OPPONENT_ID := VInt(o)]), o, map[OPPONENT_ID := VInt(user)])
  }

  /** What a handler does to the contexts when `user` triggers it. */
  function Apply(cs: Contexts, h: Handler, user: int, pick: Option<int>): Contexts
  {
    match h
    case OnStart => SetStateOf(ClearOf(cs, user), user, GameConsent)
    case OnHelp => SetStateOf(cs, user, GameConsent)
    case OnYes => SetStateOf(cs, user, ChoiceGameMode)
    case OnNo => ClearOf(cs, user)
    case OnQuickGame => SetStateOf(cs, user, QuickGame)
    case OnMatchmaking => Matched(cs, user, pick)
  }

  /** The messages a handler sends, by text key, in order. */
  function Replies(h: Handler, user: int, pick: Option<int>): seq<Event>
  {
    match h
    case OnStart => [Sent(user, "/start")]
    case OnHelp => [Sent(user, "/help")]
    case OnYes => [Sent(user, "choice_game_mode")]
    case OnNo => [Sent(user, "refused_to_play")]
    case OnQuickGame => [Sent(user, "choice_user_search")]
    case OnMatchmaking =>
      match pick
      case None => [Sent(user, "no_online_users")]
      case Some(o) => [Sent(o, "you_are_chosen"), Sent(user, "your_opponent")]
  }

  /** Each handler fires exactly when its command, text or callback data matches and its state filter holds. */
  lemma RouteFilters(cs: Contexts, u: Update)
    ensures Route(cs, u) == Some(OnStart) <==> u.Message? && u.text == "/start"
    ensures Route(cs, u) == Some(OnHelp) <==> u.Message? && u.text == "/help"
    ensures Route(cs, u) == Some(OnYes) <==> u.Message? && u.text == YES_BUTTON && Ctx(cs, u.from).state == GameConsent
    ensures Route(cs, u) == Some(OnNo) <==> u.Message? && u.text == NO_BUTTON && Ctx(cs, u.from).state == GameConsent
    ensures Route(cs, u) == Some(OnQuickGame) <==> u.Callback? && u.data == "quick_game" && Ctx(cs, u.from).state == ChoiceGameMode
    ensures Route(cs, u) == Some(OnMatchmaking) <==> u.Callback? && u.data == "matchmaking" && Ctx(cs, u.from).state == QuickGame
  {
  }

  /** /start empties the sender's data; /help keeps it. Both leave the sender waiting for consent, and nobody else changes. */
  lemma StartResetsHelpKeeps(cs: Contexts, user: int)
    ensures Ctx(Apply(cs, OnStart, user, None), user) == Context(GameConsent, map[])
    ensures Ctx(Apply(cs, OnHelp, user, None), user) == Context(GameConsent, Ctx(cs, user).data)
    ensures forall other | other != user ::
      Ctx(Apply(cs, OnStart, user, None), other) == Ctx(cs, other) && Ctx(Apply(cs, OnHelp, user, None), other) == Ctx(cs, other)
  {
  }

  /** "No" clears the sender, after which neither button is routed any more until /start or /help. */
  lemma RefusalEndsConsent(cs: Contexts, user: int, text: string)
    requires Ctx(cs, user).state == GameConsent
    ensures Route(Apply(cs, OnNo, user, None), Message(user, text)) in {Some(OnStart), Some(OnHelp), None}
    ensures Ctx(Apply(cs, OnNo, user, None), user) == Blank
  {
  }

  /** Matchmaking with nobody else online clears the requester and leaves everyone else untouched. */
  lemma UnmatchedClearsOnlyRequester(cs: Contexts, user: int)
    ensures Ctx(Matched(cs, user, None), user) == Blank
    ensures forall other | other != user :: Ctx(Matched(cs, user, None), other) == Ctx(cs, other)
  {
  }

  /**
   * Successful matchmaking: both players wait for the game to start, each
   * has the other as `opponent_id` (their other data kept), nobody else changes.
   */
  lemma MatchedPairsPlayers(cs: Contexts, user: int, o: int)
    requires o != user
    ensures var r := Matched(cs, user, Some(o));
      && Ctx(r, user) == Context(WaitingGameStart, Ctx(cs, user).data[OPPONENT_ID := VInt(o)])
      && Ctx(r, o) == Context(WaitingGameStart, Ctx(cs, o).data[OPPONENT_ID := VInt(user)])
      && forall other | other != user && other != o :: Ctx(r, other) == Ctx(cs, other)
  {
  }

  /**
   * The whole menu path: from any context, /start, "yes", quick_game and
   * matchmaking are each routed to their handler in turn, and end with the
   * sender paired with the picked opponent.
   */
  lemma MenuWalkPairsPlayers(cs: Contexts, user: int, o: int)
    requires o != user
    ensures var s1 := Apply(cs, OnStart, user, None);
      && Route(s1, Message(user, YES_BUTTON)) == Some(OnYes)
      && var s2 := Apply(s1, OnYes, user, None);
      && Route(s2, Callback(user, "quick_game")) == Some(OnQuickGame)
      && var s3 := Apply(s2, OnQuickGame, user, None);
      && Route(s3, Callback(user, "matchmaking")) == Some(OnMatchmaking)
      && var s4 := Apply(s3, OnMatchmaking, user, Some(o));
      && Ctx(s4, user) == Context(WaitingGameStart, map[OPPONENT_ID := VInt(o)])
      && Ctx(s4, o).state == WaitingGameStart
      && Ctx(s4, o).data[OPPONENT_ID] == VInt(user)
  {
  }

  /** `process_start_command` (message.answer, state.clear, state.set_state). */
  method ProcessStartCommand(storage: Storage, bot: Bot, user: int)
    modifies storage, bot
    ensures storage.contexts == Apply(old(storage.contexts), OnStart, user, None)
    ensures bot.log == old(bot.log) + Replies(OnStart, user, None)
  {
    bot.log := bot.log + [Sent(user, "/start")];
    storage.contexts := ClearOf(storage.contexts, user);
    storage.contexts := SetStateOf(storage.contexts, user, GameConsent);
  }

  /** `process_help_command`. */
  method ProcessHelpCommand(storage: Storage, bot: Bot, user: int)
    modifies storage, bot
    ensures storage.contexts == Apply(old(storage.contexts), OnHelp, user, None)
    ensures bot.log == old(bot.log) + Replies(OnHelp, user, None)
  {
    bot.log := bot.log + [Sent(user, "/help")];
    storage.contexts := SetStateOf(storage.contexts, user, GameConsent);
  }

  /** `process_game_mode`: consent given, choose the game mode. */
  method ProcessGameMode(storage: Storage, bot: Bot, user: int)
    modifies storage, bot
    ensures storage.contexts == Apply(old(storage.contexts), OnYes, user, None)
    ensures bot.log == old(bot.log) + Replies(OnYes, user, None)
  {
    bot.log := bot.log + [Sent(user, "choice_game_mode")];
    storage.contexts := SetStateOf(storage.contexts, user, ChoiceGameMode);
  }

  /** `process_no_answer`: consent refused, the context is cleared. */
  method ProcessNoAnswer(storage: Storage, bot: Bot, user: int)
    modifies storage, bot
    ensures storage.contexts == Apply(old(storage.contexts), OnNo, user, None)
    ensures bot.log == old(bot.log) + Replies(OnNo, user, None)
  {
    bot.log := bot.log + [Sent(user, "refused_to_play")];
    storage.contexts := ClearOf(storage.contexts, user);
  }

  /** `process_quick_game`: offer the opponent search. */
  method ProcessQuickGame(storage: Storage, bot: Bot, user: int)
    modifies storage, bot
    ensures storage.contexts == Apply(old(storage.contexts), OnQuickGame, user, None)
    ensures bot.log == old(bot.log) + Replies(OnQuickGame, user, None)
  {
    bot.log := bot.log + [Sent(user, "choice_user_search")];
    storage.contexts := SetStateOf(storage.contexts, user, QuickGame);
  }

  /**
   * `process_matchmaking`: pick a random other online user; with none,
   * apologise and clear the requester; otherwise set both states, notify
   * both, then record each as the other's opponent.
   */
  method ProcessMatchmaking(storage: Storage, bot: Bot, online: OnlineUsers, user: int) returns (pick: Option<int>)
    modifies storage, bot
    ensures pick.None? <==> online.users.Keys <= {user}
    ensures pick.Some? ==> pick.value in online.users && pick.value != user
    ensures storage.contexts == Apply(old(storage.contexts), OnMatchmaking, user, pick)
    ensures bot.log == old(bot.log) + Replies(OnMatchmaking, user, pick)
  {
    pick := GetRandomOnlineUser(online, user);
    if pick.None? {
      bot.log := bot.log + [Sent(user, "no_online_users")];
      storage.contexts := ClearOf(storage.contexts, user);
      return;
    }
    var o := pick.value;
    storage.contexts := SetStateOf(storage.contexts, o, WaitingGameStart);
    storage.contexts := SetStateOf(storage.contexts, user, WaitingGameStart);
    bot.log := bot.log + [Sent(o, "you_are_chosen")];
    bot.log := bot.log + [Sent(user, "your_opponent")];
    storage.contexts := UpdateDataOf(storage.contexts, user, map[OPPONENT_ID := VInt(o)]);
    storage.contexts := UpdateDataOf(storage.contexts, o, map[OPPONENT_ID := VInt(user)]);
  }

  /**
   * The router: runs the handler `Route` selects, if any; an update no menu
   * handler matches changes nothing. `pick` is the opponent matchmaking drew.
   */
  method Dispatch(storage: Storage, bot: Bot, online: OnlineUsers, u: Update) returns (fired: Option<Handler>, pick: Option<int>)
    modifies storage, bot
    ensures fired == Route(old(storage.contexts), u)
    ensures fired == Some(OnMatchmaking) ==>
      && (pick.None? <==> online.users.Keys <= {u.from})
      && (pick.Some? ==> pick.value in online.users && pick.value != u.from)
    ensures fired.Some? ==> storage.contexts == Apply(old(storage.contexts), fired.value, u.from, pick)
    ensures fired.Some? ==> bot.log == old(bot.log) + Replies(fired.value, u.from, pick)
    ensures fired.None? ==> storage.contexts == old(storage.contexts) && bot.log == old(bot.log)
  {
    fired := Route(storage.contexts, u);
    pick := None;
    match fired
    case None =>
    case Some(h) =>
      match h
      case OnStart => ProcessStartCommand(storage, bot, u.from);
      case OnHelp => ProcessHelpCommand(storage, bot, u.from);
      case OnYes => ProcessGameMode(storage, bot, u.from);
      case OnNo => ProcessNoAnswer(storage, bot, u.from);
      case OnQuickGame => ProcessQuickGame(storage, bot, u.from);
      case OnMatchmaking => pick := ProcessMatchmaking(storage, bot, online, u.from);
  }
}
