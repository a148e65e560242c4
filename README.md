# Rock-paper-scissors bot: timers, sessions and player state machines in Dafny

This project models the bookkeeping core of a Telegram rock-paper-scissors bot. The bot is partway through a move from in-process asyncio waiting to a Redis-backed timer and session layer. The Dafny model covers:

- **Timer registry** (`TimerRegistry`). It is a score-ordered set `game_timers` (member → `next_tick`) plus the index hash `game_timers:index` (`"<session>:<name>"` → member). A pure `Registry` value specifies it, and the class `TimerManager` implements it.
- **Worker pass** (`Worker`). One `global_tick` is a left fold `Pass` over the due members in ascending score order. Handler results are an oracle. `PassSynced` is the corrected pass, which also keeps the index up to date.
- **Dispatcher and completion classifier** (`Dispatch`, `Completion`). These are the name → handler tables and the NOBODY/USER/OPPONENT/BOTH classification.
- **Records and session store** (`Schemas`, `SessionStore`). They cover `GameTimer`/`GameSession` defaulting and serialisation, the `"session:"`-prefixed store, and the symmetric `"min:max"` session id.
- **Per-player contexts** (`Fsm`). Each chat has a state and a data dictionary in a shared `Storage`. The bot's sends and deletions are appended to a log in `Bot`.
- **Game managers.** `GameManager` is the Redis-era bot `GameMaster`, with its `PlayerCode` fan-out, hand recording, rounds and `finish_game`. `LegacyGame` is the older in-memory `GameMaster` with its class-level session registry, the polling waits and the delayed hand-choice task.
- **Rules and presence** (`Rules`, `Presence`). They cover `get_winner`, `get_bot_choice`, the `OnlineUsers` table with expiry-based `cleanup`, and `get_random_online_user`.
- **Menu and move handlers** (`Menu`, `GameHandlers`). These are the state-filtered router transitions from /start to a matched pair of players, and the move buttons.

Time is an integer on one timeline. Timer times are in milliseconds, so the default frequency of 0.1 s is 100 and the default timeout of 10 s is 10000. Random choices are Dafny `:|` choices. Handler results and polled player states are function parameters (oracles).

## Model

| member | source | states |
|---|---|---|
| Strings.IntToStringInjective | shared/repositories/redis/session.py:46-47 | distinct integers print differently, so the decimal ids in a session id can be read back |
| Strings.JoinInjective | shared/repositories/redis/session.py:47 | `a + ":" + b` determines `a` and `b` when `b` has no colon |
| TimerRegistry.MakeTimerKey | shared/repositories/redis/timer.py:12-13 | the key is the session id, then ':', then the timer name |
| TimerRegistry.TimerKeyInjective | shared/repositories/redis/timer.py:12-13 | different (session, name) pairs with colon-free names get different keys |
| TimerRegistry.Schedule | shared/repositories/redis/timer.py:15-36 | fails and changes nothing exactly when the key is already indexed; on success the new member is scored by its `next_tick`, the index maps the key to it, and everything else stays |
| TimerRegistry.Lookup | shared/repositories/redis/timer.py:38-44 | None exactly when the key is not indexed; otherwise the indexed record, whose key is the pair's |
| TimerRegistry.Delete | shared/repositories/redis/timer.py:46-51 | the key leaves the index and the member it pointed to leaves the zset; every other index entry and member keeps its value |
| TimerRegistry.SchedulePreservesValid | shared/repositories/redis/timer.py:22-36 | scheduling keeps every index entry pointing at a record with its own key, and every record scored by its `next_tick` |
| TimerRegistry.SchedulePreservesSynced | shared/repositories/redis/timer.py:22-36 | scheduling keeps the index and the zset in agreement |
| TimerRegistry.ScheduleTwice | shared/repositories/redis/timer.py:15-36 | two schedules of one pair give True then False, and the second changes nothing; one record with that key is left, and lookup returns it |
| TimerRegistry.DeletePreservesValid | shared/repositories/redis/timer.py:46-51 | deletion keeps the registry well formed |
| TimerRegistry.DeletePreservesSynced | shared/repositories/redis/timer.py:46-51 | deletion keeps the index and the zset in agreement |
| TimerRegistry.DeleteAbsentIsNoOp | shared/repositories/redis/timer.py:48-51 | deleting an unindexed pair changes nothing |
| TimerRegistry.DeleteThenSchedule | shared/repositories/redis/timer.py:17-20 | after a delete, scheduling the same pair succeeds |
| TimerRegistry.TimerManager.ScheduleTimer | shared/repositories/redis/timer.py:15-36 | the two structures and the result are those of `Schedule` |
| TimerRegistry.TimerManager.GetTimer | shared/repositories/redis/timer.py:38-44 | returns a fresh timer equal to the indexed record when there is one, otherwise None |
| TimerRegistry.TimerManager.DeleteTimer | shared/repositories/redis/timer.py:46-51 | the two structures become those of `Delete` |
| Schemas.Decode | worker/main.py:30-32 | a member decodes exactly when it is JSON, and gives the record it holds |
| Schemas.GameSession.constructor | shared/schemas/game_schemas.py:5-18 | a missing or naive `created_at` becomes an aware `now`; an aware one is kept |
| Schemas.GameSession.ModelPostInit | shared/schemas/game_schemas.py:15-18 | a naive `created_at` is replaced by an aware `now`; the other fields are unchanged |
| Schemas.GameSession.ModelDumpJson | shared/schemas/game_schemas.py:11-13 | the record holds the id, status and creation time |
| Schemas.GameTimer.constructor | shared/schemas/game_schemas.py:21-40 | frequency and timeout default to 100 and 10000; a missing `expire_at`/`next_tick` becomes now + timeout or now + frequency; a given one is kept |
| Schemas.GameTimer.ModelPostInit | shared/schemas/game_schemas.py:33-40 | fills in only the missing `expire_at`/`next_tick` |
| Schemas.GameTimer.ModelDump | shared/schemas/game_schemas.py:42-46 | the dump keeps session id, name, frequency, `expire_at` and `next_tick`; the record type has no timeout |
| Schemas.GameTimer.ModelDumpJson | shared/schemas/game_schemas.py:48-50 | the JSON form decodes to exactly the dump |
| Dispatch.HandleTick | worker/src/handlers/generals.py:23-32 | an unregistered name calls nothing; a registered one calls its handler with the session id and time left |
| Dispatch.HandleTimeout | worker/src/handlers/generals.py:35-46 | an unregistered name is "not done"; a registered one returns exactly its handler's result |
| Dispatch.TablesRegisterHandsCompletion | worker/src/handlers/generals.py:13-19 | both tables register exactly `"hands_completion"` |
| Completion.Classify | worker/src/handlers/tick.py:16-32 | BOTH, USER, OPPONENT and NOBODY each hold exactly for their combination of the two completion flags |
| Completion.ClassifySymmetric | worker/src/handlers/tick.py:16-32 | swapping the two states swaps USER and OPPONENT |
| Worker.Rescheduled | worker/main.py:53-54 | the copy has the same key and `next_tick = now + frequency`, and equals the original exactly when that was already its `next_tick` |
| Worker.StepCalls | worker/main.py:29-51 | an undecodable member calls nothing; an expired timer calls the timeout handler with its result; a live one calls the tick handler with `expire_at - now` |
| Worker.Step | worker/main.py:29-59 | one member, as written: the index is untouched; an undecodable member is dropped; a live timer's rescheduled copy is present, scored `now + frequency`; an expired one leaves exactly when its handler reports done |
| Worker.Pass | worker/main.py:29-59 | the whole pass, as written, leaves the index exactly as it was |
| Worker.LowestScoreExists | worker/main.py:27 | a non-empty set of members has one of lowest score |
| Worker.RangeByScore | worker/main.py:27 | returns each member with score at most `now` exactly once, in ascending score order |
| Worker.GlobalTick | worker/main.py:11-59 | the due list is that range, the registry becomes the fold `Pass` over it, and the calls are those the fold makes |
| Worker.PassPreservesValid | worker/main.py:29-59 | the pass leaves the index as it was and keeps every record scored by its `next_tick` |
| Worker.PassKeepsOthers | worker/main.py:27 | a member that is not due keeps its place and score |
| Worker.PassDropsUndecodable | worker/main.py:30-35 | an undecodable due member is gone afterwards |
| Worker.PassAppend | worker/main.py:29 | the pass over `a + b` is the pass over `a` followed by the pass over `b` |
| Worker.PassFrame | worker/main.py:29-59 | a member unrelated to every processed member keeps its presence and score |
| Worker.PassAround | worker/main.py:29 | the pass splits into the prefix, the member at position p, and the suffix |
| Worker.OthersUnrelated | worker/main.py:29 | with unique keys, no other due member shares the key of the one at position p |
| Worker.PassTimeoutOutcome | worker/main.py:42-48 | an expired timer is removed exactly when its timeout handler reports done, and otherwise keeps its score |
| Worker.PassTickOutcome | worker/main.py:49-59 | a live timer is replaced by its rescheduled copy, scored `now + frequency` |
| Worker.RescheduledNotDue | worker/main.py:53-58 | with a positive frequency, the rescheduled copy is no longer due at the same `now` |
| Worker.StepNeverGrows | worker/main.py:29-59 | one step never increases the zset size |
| Worker.PassNeverGrows | worker/main.py:29-59 | a pass never increases the zset size |
| Worker.SyncedUniqueKeys | shared/repositories/redis/timer.py:17-20 | an index-synchronised zset holds at most one record per key |
| Worker.TimelineStart | shared/repositories/redis/timer.py:15-36 | a timer with frequency 2 s and timeout 10 s scheduled at t0 is first due at t0 + 2 s |
| Worker.TimelineTick | worker/main.py:49-59 | at t0 + 2k s (1 ≤ k ≤ 4) it is ticked with `10 - 2k` s left and rescheduled to t0 + 2(k+1) s |
| Worker.TimelineTimeout | worker/main.py:42-48 | at t0 + 10 s it goes to the timeout handler with 0 left, and is removed exactly when done |
| Worker.TickLeavesIndexStale | worker/main.py:56-59 | as written, after a tick the index still points at the removed member, and `delete_timer` then leaves the rescheduled copy in the zset |
| Worker.TimeoutBlocksReschedule | worker/main.py:47-48 | as written, after a completed timeout the index entry remains, so `schedule_timer` for the pair keeps failing |
| Worker.StepSynced | worker/main.py:47-59 | the corrected step changes the zset as the written one does; a live timer's key indexes its rescheduled copy, and an expired one's key leaves the index exactly when the handler reports done |
| Worker.PassSynced | worker/main.py:29-59 | the correction changes only the index: the corrected pass leaves the zset exactly as the written pass does |
| Worker.StepSyncedPreservesSynced | worker/main.py:42-59 | one corrected step keeps the registry well formed and synchronised |
| Worker.PassSyncedPreservesSynced | worker/main.py:29-59 | the corrected pass keeps the registry well formed and synchronised |
| Worker.SyncedTimeoutAllowsReschedule | worker/main.py:42-48 | with the correction, a completed timeout frees the pair for `schedule_timer` |
| Worker.PassSyncedAppend | worker/main.py:29 | the corrected pass over `a + b` is the corrected pass over `a` followed by the one over `b` |
| Worker.PassSyncedIndexFrame | worker/main.py:29-59 | the corrected pass leaves index keys it does not process as they were |
| Worker.SyncedTickThenDelete | worker/main.py:49-59 | with the correction, `delete_timer` after a tick leaves no record with that key |
| Worker.TickSynced | worker/main.py:29-59 | one member of the corrected loop: the registry becomes `StepSynced` of the old one, and the calls are that member's `StepCalls` |
| Worker.GlobalTickSynced | worker/main.py:11-59 | the corrected tick: the due list is the range, and the registry becomes `PassSynced` over it |
| SessionStore.SessionKey | shared/repositories/redis/session.py:21-40 | the store key is `"session:"` followed by the id |
| SessionStore.SessionKeyInjective | shared/repositories/redis/session.py:21-40 | distinct ids use distinct keys |
| SessionStore.Saved | shared/repositories/redis/session.py:15-23 | the saved record is found under its id, and other ids are unaffected |
| SessionStore.Find | shared/repositories/redis/session.py:25-34 | None exactly when the prefixed key is absent |
| SessionStore.Removed | shared/repositories/redis/session.py:36-41 | the id is gone, other ids are unaffected, and removing an absent id changes nothing |
| SessionStore.Reloaded | shared/repositories/redis/session.py:33 | reloading keeps id and status, keeps an aware time, and replaces a naive one by the aware time of loading |
| SessionStore.GenerateSessionIdSymmetric | shared/repositories/redis/session.py:43-47 | the id is the same in either argument order |
| SessionStore.GenerateSessionId | shared/repositories/redis/session.py:43-47 | the id is the smaller player id in decimal, a colon, then the larger one |
| SessionStore.GenerateSessionIdInjective | shared/repositories/redis/session.py:46-47 | equal ids come from the same unordered pair |
| SessionStore.SessionManager.SaveSession | shared/repositories/redis/session.py:15-23 | the store becomes `Saved` with the session's JSON record |
| SessionStore.SessionManager.GetSession | shared/repositories/redis/session.py:25-34 | None for an absent key, otherwise a fresh session built from the stored record |
| SessionStore.SessionManager.DeleteSession | shared/repositories/redis/session.py:36-41 | the store becomes `Removed` |
| SessionStore.SaveThenGet | shared/repositories/redis/session.py:15-34 | reading back a saved session gives the same record |
| Fsm.UpdateEach | bot/src/handlers/user_handlers/game_managers.py:57-65 | every listed context gets the new keys, and unlisted ones are untouched |
| Fsm.SetStateEach | bot/src/handlers/user_handlers/game_managers.py:79-87 | every listed context gets the state, and unlisted ones are untouched |
| Fsm.Notices | bot/src/handlers/user_handlers/game_managers.py:44-55 | one message to each listed chat, in order |
| GameManager.DeleteEffects | bot/src/handlers/user_handlers/game_managers.py:101-121 | each target's `message_edited_id` is reset, with one deletion per target in that target's chat, using its stored message id |
| GameManager.ZAdd | bot/src/handlers/user_handlers/game_managers.py:176-177 | `zadd` raises exactly for a `datetime` score and then adds nothing; a numeric score adds the element with that score and keeps the index and every other member |
| GameManager.ScheduleBypass | bot/src/handlers/user_handlers/game_managers.py:170-177 | with the score converted to a number: the new member enters the zset scored by its `next_tick`, the index is untouched, and records with other keys keep their scores |
| GameManager.GameMaster.constructor | bot/src/handlers/user_handlers/game_managers.py:15-28 | the session id is the symmetric id of the two players |
| GameManager.GameMaster.Answer | bot/src/handlers/user_handlers/game_managers.py:44-55 | one message to each player the code names |
| GameManager.GameMaster.UpdateDate | bot/src/handlers/user_handlers/game_managers.py:57-65 | the named players' data gets the new keys; nobody else changes |
| GameManager.GameMaster.GetData | bot/src/handlers/user_handlers/game_managers.py:67-73 | USER or OPPONENT reads that player's data; any other code gives `{}` |
| GameManager.GameMaster.SetState | bot/src/handlers/user_handlers/game_managers.py:79-87 | the named players get the state; nobody else changes |
| GameManager.GameMaster.GetState | bot/src/handlers/user_handlers/game_managers.py:89-95 | USER or OPPONENT reads that state; any other code gives the default state |
| GameManager.GameMaster.DeleteMessage | bot/src/handlers/user_handlers/game_managers.py:101-121 | NOBODY raises; otherwise the effects are `DeleteEffects` over the named players |
| GameManager.GameMaster.AnnounceWinner | bot/src/handlers/user_handlers/game_managers.py:123-130 | the winner gets "you win" and the `winner` state; the stored opponent, if any, gets "you lose" |
| Fsm.LoserNotice | bot/src/handlers/user_handlers/game_managers.py:127-129 | at most one message: "you lose" to the winner's stored `opponent_id`, sent exactly when that id is a non-zero integer |
| GameManager.GameMaster.StartFirstHandRound | bot/src/handlers/user_handlers/game_managers.py:187-194 | only the user moves to choosing the first hand's action |
| GameManager.GameMaster.StartSecondHandRound | bot/src/handlers/user_handlers/game_managers.py:196-203 | only the user moves to choosing the second hand's action |
| GameManager.GameMaster.StartHandChoiceRound | bot/src/handlers/user_handlers/game_managers.py:205-212 | both players are invited and both move to `choice_hand` |
| GameManager.GameMaster.ProcessFirstHand | bot/src/handlers/user_handlers/game_managers.py:214-218 | stores `first_hand` and changes no state |
| GameManager.GameMaster.ProcessSecondHand | bot/src/handlers/user_handlers/game_managers.py:220-226 | stores `second_hand`, sets the user to `both_hands_ready`, and leaves the opponent untouched |
| GameManager.GameMaster.ClearStates | bot/src/handlers/user_handlers/game_managers.py:228-231 | both contexts are cleared |
| GameManager.GameMaster.FinishGame | bot/src/handlers/user_handlers/game_managers.py:233-243 | the effect is `FinishAsWritten`, with the guard inverted |
| GameManager.GameMaster.FinishGameCorrected | bot/src/handlers/user_handlers/game_managers.py:233-243 | the effect is `FinishCorrected` |
| GameManager.GameMaster.ScheduleTimer | bot/src/handlers/user_handlers/game_managers.py:153-177 | the `zadd` score is `next_tick` itself, a `datetime`, so the call always raises and no timer is scheduled |
| GameManager.GameMaster.ScheduleTimerCorrected | bot/src/handlers/user_handlers/game_managers.py:153-177 | the registry and result are those of `Schedule` |
| GameManager.GameMaster.CancelTimeout | bot/src/handlers/user_handlers/game_managers.py:179-185 | the registry becomes `CancelAsWritten` |
| GameManager.GameMaster.CancelTimeoutCorrected | bot/src/handlers/user_handlers/game_managers.py:179-185 | the registry becomes `Delete` |
| GameManager.SameSessionForBothPlayers | bot/src/handlers/user_handlers/game_managers.py:27-28 | the user's and the opponent's managers compute the same session id |
| GameManager.SecondHandsCompleteTheRound | bot/src/handlers/user_handlers/game_managers.py:220-226 | once both players record a second hand, the classifier says BOTH |
| GameManager.DeleteMessageResetsBoth | bot/src/handlers/user_handlers/game_managers.py:101-121 | with BOTH, each player's `message_edited_id` is reset and the states are kept |
| GameManager.FinishAsWrittenKeepsLiveGame | bot/src/handlers/user_handlers/game_managers.py:236-237 | as written, a live session is never finished |
| GameManager.FinishAsWrittenRepeats | bot/src/handlers/user_handlers/game_managers.py:236-243 | as written, with no stored session, each call notifies the players again |
| GameManager.FinishCorrectedRunsOnce | bot/src/handlers/user_handlers/game_managers.py:233-243 | corrected: the first call notifies and clears both players and deletes the session; a second call does nothing |
| GameManager.BypassDuplicatesTimers | bot/src/handlers/user_handlers/game_managers.py:170-177 | once the score is a number, two direct schedules of one pair leave two records with the same key, none indexed, and `delete_timer` removes neither |
| GameManager.CorrectedScheduleRefusesDuplicate | shared/repositories/redis/timer.py:17-20 | through the index, the second schedule is refused |
| GameManager.CancelAsWrittenKeepsTimers | bot/src/handlers/user_handlers/game_managers.py:184-185 | as written, no timer record and no index entry is removed |
| GameManager.CancelAsWrittenMissesScheduled | bot/src/handlers/user_handlers/game_managers.py:184-185 | as written, a scheduled timer is still found after cancelling |
| GameManager.CancelCorrectedRemovesTimer | shared/repositories/redis/timer.py:46-51 | corrected: no record with the key remains, and the pair can be scheduled again |
| LegacyGame.GenerateSessionId | handlers/user_handlers/game_managers.py:30-34 | the id is the sorted pair of the two players |
| LegacyGame.GenerateSessionIdSymmetric | handlers/user_handlers/game_managers.py:30-34 | it is symmetric, and equal ids come from the same unordered pair |
| LegacyGame.Finish | handlers/user_handlers/game_managers.py:235-247 | the session is no longer registered afterwards; an unregistered session changes nothing; a registered one clears both players and sends both "game cancelled" |
| LegacyGame.GameSession.constructor | handlers/user_handlers/game_managers.py:22-25 | the new session registers itself under its id |
| LegacyGame.GameSession.Delete | handlers/user_handlers/game_managers.py:27-28 | the id leaves the registry |
| LegacyGame.FinishRunsOnce | handlers/user_handlers/game_managers.py:235-247 | the first finish notifies and clears both players and unregisters the session; a second call is a no-op |
| LegacyGame.Pings | handlers/user_handlers/game_managers.py:284-285 | the waiting message goes out exactly on the steps divisible by the period, in increasing order |
| LegacyGame.GameMaster.constructor | handlers/user_handlers/game_managers.py:38-56 | reuses the registered session for the id, or registers a new one; either way the id is registered afterwards |
| LegacyGame.GameMaster.AnnounceWinner | handlers/user_handlers/game_managers.py:115-123 | the winner gets "you win" and the `winner` state; the stored opponent, if any, gets "you lose" |
| LegacyGame.GameMaster.StartHandChoiceRound | handlers/user_handlers/game_managers.py:201-210 | the user gets two messages and both players move to `choice_hand` |
| LegacyGame.GameMaster.FinishGame | handlers/user_handlers/game_managers.py:228-247 | the effect is `Finish`, and the registry loses the id |
| LegacyGame.GameMaster.WaitForHandsCompletion | handlers/user_handlers/game_managers.py:141-167 | returns BOTH exactly when both are complete at the last poll; any other code only once the timeout has elapsed; every earlier poll was incomplete and before the timeout |
| LegacyGame.GameMaster.RunDelayedStartHandChoiceRound | handlers/user_handlers/game_managers.py:169-184 | the outcome and the timing are those of the wait; BOTH starts the hand-choice round with its two messages; USER or OPPONENT gets "you win" and the winner state, and the stored opponent gets "you lose"; NOBODY tells the user both were too long, then finishes the game |
| LegacyGame.GameMaster.WaitOpponentConsent | handlers/user_handlers/game_managers.py:268-287 | returns on consent and cancels on refusal or a missing opponent; pings exactly on the period's multiples; a zero `update_frequency` raises division by zero |
| LegacyGame.BothWinsOverTimeout | handlers/user_handlers/game_managers.py:157-160 | when both are complete at a poll, the outcome is BOTH whatever the elapsed time |
| Rules.RulesAreBeats | services/services.py:12-15 | the rules table is exactly the beats relation over the three moves |
| Rules.GetWinnerMatchesBeats | shared/services/services.py:11-21 | on valid moves: a draw is "nobody_won", a win is "user_won", otherwise "bot_won" |
| Rules.ThreeWins | services/services.py:12-20 | rock beats scissors, scissors beats paper, and paper beats rock |
| Rules.DrawAnyMove | services/services.py:17-18 | equal moves are always a draw |
| Rules.GetWinnerAntisymmetric | services/services.py:12-22 | for distinct valid moves, "user_won" one way round iff "bot_won" the other |
| Rules.GetWinnerFailsOnUnknownMove | services/services.py:19 | a KeyError happens exactly for an unknown user move that is not a draw |
| Rules.GetBotChoice | services/services.py:7-8 | the bot's move is one of the three |
| Rules.GetWinner | shared/services/services.py:10-21 | a valid user move always yields a result, which is one of the three outcomes; "nobody_won" exactly for equal moves |
| Presence.Survivors | bot/src/database/db.py:20-28 | exactly the users seen less than the duration ago remain, with their timestamps |
| Presence.CleanupIdempotent | bot/src/database/db.py:20-28 | a second cleanup at the same time removes nothing |
| Presence.JustSeenSurvives | bot/src/database/db.py:15-28 | with a positive duration, a user set online at `now` survives cleanup at `now` |
| Presence.OnlineUsers.SetOnline | bot/src/database/db.py:15-17 | records `now` for the user, and every other entry is unchanged |
| Presence.OnlineUsers.Cleanup | bot/src/database/db.py:20-28 | the table becomes `Survivors`, so every remaining user is still within the duration |
| Presence.GetRandomOnlineUser | shared/services/services.py:24-30 | returns an online user other than the requester; IndexError iff there is none |
| Menu.Route | bot/src/handlers/user_handlers/menu_handlers.py:17-61 | message handlers fire only on messages, and callback handlers only on callbacks |
| Menu.RouteFilters | bot/src/handlers/user_handlers/menu_handlers.py:17-61 | each handler fires exactly when its command, text or data matches and its state filter holds |
| Menu.StartResetsHelpKeeps | bot/src/handlers/user_handlers/menu_handlers.py:17-28 | /start leaves the user in `game_consent` with no data; /help keeps the data; nobody else changes |
| Menu.RefusalEndsConsent | bot/src/handlers/user_handlers/menu_handlers.py:42-46 | "no" clears the user, after which only /start or /help is routed |
| Menu.UnmatchedClearsOnlyRequester | bot/src/handlers/user_handlers/menu_handlers.py:67-72 | with nobody else online, only the requester is cleared |
| Menu.Matched | bot/src/handlers/user_handlers/menu_handlers.py:84-107 | with no opponent the requester is cleared; with one, both wait for the game start and each names the other as `opponent_id`; nobody else changes |
| Menu.MatchedPairsPlayers | bot/src/handlers/user_handlers/menu_handlers.py:84-107 | both players wait for the game to start, each names the other as `opponent_id`, and nobody else changes |
| Menu.MenuWalkPairsPlayers | bot/src/handlers/user_handlers/menu_handlers.py:17-107 | /start, "yes", quick game and matchmaking are each routed in turn, and they end with the pair matched |
| Menu.ProcessStartCommand | bot/src/handlers/user_handlers/menu_handlers.py:17-21 | clears the user and sets `game_consent` |
| Menu.ProcessHelpCommand | bot/src/handlers/user_handlers/menu_handlers.py:25-28 | sets `game_consent` |
| Menu.ProcessGameMode | bot/src/handlers/user_handlers/menu_handlers.py:32-38 | moves to `choice_game_mode` |
| Menu.ProcessNoAnswer | bot/src/handlers/user_handlers/menu_handlers.py:42-46 | clears the user |
| Menu.ProcessQuickGame | bot/src/handlers/user_handlers/menu_handlers.py:49-56 | moves to `quick_game` |
| Menu.ProcessMatchmaking | bot/src/handlers/user_handlers/menu_handlers.py:59-107 | the opponent is online and is not the requester, or there is none; the contexts and messages are those of `Matched` |
| Menu.Dispatch | bot/src/handlers/user_handlers/menu_handlers.py:13-107 | runs exactly the routed handler; an unmatched update changes nothing |
| GameHandlers.GameRoute | handlers/user_handlers/game_handlers.py:14-28 | a move callback is always handled, and anything else is not |
| GameHandlers.GameRouteFilters | handlers/user_handlers/game_handlers.py:14-28 | the first-hand handler takes a move while choosing the first hand; the game button takes a move in any other state |
| GameHandlers.FirstHand | handlers/user_handlers/game_handlers.py:18-24 | the move is stored as the first hand, the player moves to choosing the second hand, and nobody else changes |
| GameHandlers.FirstHandRecordsMove | handlers/user_handlers/game_handlers.py:18-24 | records `action_for_first_hand` and moves to choosing the second hand; nobody else changes |
| GameHandlers.SecondPressIsAGame | handlers/user_handlers/game_handlers.py:14-28 | after the first hand, a second move press goes to the game button |
| GameHandlers.ProcessFirstHand | handlers/user_handlers/game_handlers.py:16-24 | the contexts become `FirstHand`, and the choice is echoed |
| GameHandlers.ProcessGameButton | handlers/user_handlers/game_handlers.py:29-39 | the bot's move is valid, the outcome is `get_winner` under the beats relation, the three messages are sent, and no context changes |
| GameHandlers.Dispatch | handlers/user_handlers/game_handlers.py:11-39 | runs exactly the routed handler: the first hand is stored and echoed; the game button reports both moves and the outcome `get_winner` gives for a valid bot move; only the first-hand handler changes contexts, and an unrouted callback sends nothing |

## Left out

- Concurrency is not modelled. The model leaves out the `asyncio.Lock` of the in-memory session, races between worker processes, and `asyncio.wait_for`/`sleep` timing. Every call is sequential.
- Worker wiring (`worker()` and the process spawn in worker/main.py) and the bot start-up are not modelled. They are plumbing.
- Contexts and message targets are keyed by one id per player: every chat is taken to be a private chat, so chat id and user id coincide. The source makes the same assumption when it builds the opponent's storage key from `opponent_id` alone. Group chats are not modelled.
- Telegram I/O is not modelled. Sends and deletions are appended to `Bot.log` and identified by their lexicon key, and keyboards are not modelled.
- Middleware is not modelled. It only adapts Telegram updates for the presence table.
- Redis TTL expiry (the `ttl` argument of `save_session`) is ignored, because expiry depends on wall-clock time.
- The worker's call `handle_timeout(session_id, timer_name)` passes two arguments to a three-parameter function, which would raise TypeError. The model passes `expire_at - now` as the missing time left.
- `expire_at` is serialised as an ISO datetime but compared with a float `now`. The model puts both on one integer timeline.
- Worker.RangeByScore: scores are taken as non-negative timestamps, so the lower bound 0 of `zrangebyscore(key, 0, now)` is not modelled; a member with a negative score would be treated as due.
- GameManager.ScheduleBypass: it is `schedule_timer` with the score converted to a number, as the registry's own `schedule_timer` does with `.timestamp()`. As written, the bot's `schedule_timer` raises (see `GameManager.GameMaster.ScheduleTimer`).
- JSON members that parse but lack a field (a KeyError in the worker) are not modelled. A member is either a timer record or an unparsable text.
- `hands_completion_timeout` is not modelled, because its file is syntactically incomplete. The outcome → action mapping comes from the in-memory `run_delayed_start_hand_choice_round_task`.
- `show_players_hands`, `react_to_cancellation`, `react_to_timeout` and `get_opponent_id` in both game managers are not modelled. They are message formatting around stored data; `show_players_hands` also raises KeyError when a hand is missing.
- The in-memory manager's `answer_*`/`update_date_*`/`set_state_*` wrappers, `start_first_hand_round`, `start_second_hand_round`, `process_*_hand` and `clear_states` are not modelled separately. They are the per-player forms of the fan-out that `GameManager.GameMaster` models.
- `run_waiting_opponent_consent_task` is not modelled. It only wraps `wait_opponent_consent` in `asyncio.wait_for`, which the `limit` step bound stands for.
- `cleanup_task` (the periodic cleanup loop) is not modelled. It is a timing loop.
- The phases `both_hands_ready` and `winner` are added to `Phase`. The code uses them, but the states group does not declare them.
- LegacyGame.GameMaster.WaitForHandsCompletion: elapsed time is taken as the poll count times `check_interval`, with `check_interval > 0` required. Event-loop time is not modelled.
- LegacyGame.GameMaster.WaitOpponentConsent: it stops after `limit` steps with `TimedOut`, standing for the enclosing `asyncio.wait_for` deadline.
- LegacyGame.GameMaster.RunDelayedStartHandChoiceRound: the BOTH case does not show the players' hands (see `show_players_hands` above).
- GameManager.GameMaster.Answer: it requires a code other than NOBODY, because for NOBODY the source reads an unbound local and raises UnboundLocalError.
- Fsm.LoserNotice: the "you lose" message goes only to an integer `opponent_id`. A truthy non-integer id, which the source would pass to Telegram, is not sent.
- Menu.Route: commands are matched as the exact texts "/start" and "/help". Deep-link payloads and `@botname` suffixes are not modelled, and neither are updates handled by other routers.
- GameHandlers.ProcessGameButton and GameHandlers.ProcessFirstHand: the lexicon is not modelled, so messages carry the move key instead of its display text.

## Findings

| source | as written | input that shows it | evidently intended | confidence | as-written member | corrected member |
|---|---|---|---|---|---|---|
| worker/main.py:47-59 | `global_tick` removes or replaces zset members but never updates `game_timers:index` | a timer whose timeout handler reports done: its index entry remains, so every later `schedule_timer` for that pair returns False | the index is updated in the same pipeline, so a finished timer frees its pair and a ticked one is still deletable | not executed | Worker.TimeoutBlocksReschedule | Worker.SyncedTimeoutAllowsReschedule |
| bot/src/handlers/user_handlers/game_managers.py:184-185 | `cancel_timeout` removes the member `"<session>:<name>"`, but members are JSON timer records | any scheduled timer: after `cancel_timeout` it is still in the zset and still found by `get_timer` | remove the timer through the index (`delete_timer`) | not executed | GameManager.CancelAsWrittenMissesScheduled | GameManager.CancelCorrectedRemovesTimer |
| bot/src/handlers/user_handlers/game_managers.py:170-177 | `schedule_timer` hands the `datetime` `next_tick` to `zadd` as the score, and adds to the zset directly, without the index and without the duplicate check | any call: redis-py cannot encode a `datetime` score and raises, so no timer is ever scheduled; with the score converted to a number, two calls for one pair at different times leave two records with one key, neither indexed, and `delete_timer` removes neither | schedule through `TimerManager.schedule_timer`, which scores by `next_tick.timestamp()` and refuses a duplicate | not executed | GameManager.GameMaster.ScheduleTimer | GameManager.CorrectedScheduleRefusesDuplicate |
| bot/src/handlers/user_handlers/game_managers.py:236-237 | `finish_game` returns when the session exists | a live game: `finish_game` does nothing, and with no stored session every call notifies both players again | return when the session is already gone, so that the game finishes exactly once | not executed | GameManager.FinishAsWrittenKeepsLiveGame | GameManager.FinishCorrectedRunsOnce |
