/**
 * The game manager of the bot (`GameMaster` in
 * bot/src/handlers/user_handlers/game_managers.py): for one player (the user)
 * and their opponent, it fans state and data updates out by `PlayerCode`,
 * records hands, advances phases, schedules and cancels timers and finishes
 * the game. The contexts live in a shared `Storage`, sessions in a
 * `SessionManager`, timers in a `TimerManager`; messages go to the `Bot` log.
 */
module GameManager {
  import opened Wrappers
  import opened Enums
  import opened States
  import opened Strings
  import opened Schemas
  import opened Fsm
  import opened SessionStore
  import opened TimerRegistry
  import opened Completion

  /** The chats a `PlayerCode` addresses, user first. */
  function Targets(whom: PlayerCode, userId: int, opponentId: int): seq<int>
  {
    match whom
    case USER => [userId]
    case OPPONENT => [opponentId]
    case BOTH => [userId, opponentId]
    case NOBODY => []
  }

  const RESET_EDITED: Data := map["message_edited_id" := VNone]

  /** The message id `delete_message` reads under `key`: the stored int, or 0 for anything else. */
  function MessageIdOf(data: Data, key: string): int
  {
    if key in data && data[key].VInt? then data[key].i else 0
  }

  /**
   * The loop of `delete_message` over the targeted chats: for each, delete the
   * message whose id is stored under `key`, then reset `message_edited_id`.
   */
  function DeleteEffects(cs: Contexts, targets: seq<int>, key: string): (res: (Contexts, seq<Event>))
    ensures res.0 == UpdateEach(cs, targets, RESET_EDITED)
    ensures |res.1| == |targets|
    ensures forall i | 0 <= i < |targets| :: res.1[i].Deleted? && res.1[i].chat == targets[i]
    ensures (forall i, j | 0 <= i < j < |targets| :: targets[i] != targets[j]) ==>
      forall i | 0 <= i < |targets| :: res.1[i].messageId == MessageIdOf(Ctx(cs, targets[i]).data, key)
    decreases |targets|
  {
    if targets == [] then (cs, [])
    else
      var pre := targets[..|targets| - 1];
      var id := targets[|targets| - 1];
      var (cs1, events) := DeleteEffects(cs, pre, key);
      assert UpdateEach(cs, targets, RESET_EDITED) == UpdateDataOf(cs1, id, RESET_EDITED);
      (UpdateDataOf(cs1, id, RESET_EDITED), events + [Deleted(id, MessageIdOf(Ctx(cs1, id).data, key))])
  }

  /** The state `finish_game` reads and writes: both contexts, the session store and the chat log. */
  datatype Snapshot = Snapshot(contexts: Contexts, store: map<string, SessionRecord>, log: seq<Event>)

  /** The game over for both players: notified, cleared, session deleted. */
  function Finished(s: Snapshot, userId: int, opponentId: int, sessionId: string): Snapshot
  {
    Snapshot(ClearOf(ClearOf(s.contexts, userId), opponentId),
             Removed(s.store, sessionId),
             s.log + Notices([userId, opponentId], "game_finished"))
  }

  /** `finish_game` as written: it returns when the store HOLDS the session. */
  function FinishAsWritten(s: Snapshot, userId: int, opponentId: int, sessionId: string): Snapshot
  {
    if Find(s.store, sessionId).Some? then s else Finished(s, userId, opponentId, sessionId)
  }

  /** `finish_game` as its comment intends: it returns when the session is already gone. */
  function FinishCorrected(s: Snapshot, userId: int, opponentId: int, sessionId: string): Snapshot
  {
    if Find(s.store, sessionId).None? then s else Finished(s, userId, opponentId, sessionId)
  }

  /** A score handed to `zadd`: a number, or a `datetime`, which redis-py cannot encode. */
  datatype Score = Number(n: int) | DateTime(instant: int)

  /**
   * `zadd` of one element into `game_timers`; None stands for the DataError
   * redis-py raises for a score that is not a number, before anything is added.
   */
  function ZAdd(r: Registry, e: Member, score: Score): (res: Option<Registry>)
    ensures res.None? <==> score.DateTime?
    ensures res.Some? ==> res.value.index == r.index && e in res.value.zset && res.value.zset[e] == score.n
    ensures res.Some? ==> forall m | m in r.zset && m != e :: m in res.value.zset && res.value.zset[m] == r.zset[m]
  {
    if score.DateTime? then None else Some(r.(zset := r.zset[e := score.n]))
  }

  /**
   * `schedule_timer` with its score converted to a number but still a plain
   * `zadd`, without the index or the duplicate check.
   */
  function ScheduleBypass(r: Registry, sessionId: string, timerName: string, frequency: int, timeout: int, now: int)
    : (r': Registry)
    ensures r'.index == r.index
    ensures Json(NewRecord(sessionId, timerName, frequency, timeout, now)) in r'.zset
    ensures r'.zset[Json(NewRecord(sessionId, timerName, frequency, timeout, now))] == NewRecord(sessionId, timerName, frequency, timeout, now).nextTick
    ensures forall m | m in r.zset && m.Json? && KeyOf(m.rec) != MakeTimerKey(sessionId, timerName) ::
      m in r'.zset && r'.zset[m] == r.zset[m]
  {
    var t := NewRecord(sessionId, timerName, frequency, timeout, now);
    r.(zset := r.zset[Json(t) := t.nextTick])
  }

  /** `cancel_timeout` as written: `zrem` of the text "<session>:<name>", which is not a timer's JSON. */
  function CancelAsWritten(r: Registry, sessionId: string, timerName: string): Registry
  {
    r.(zset := r.zset - {Text(Join(sessionId, timerName))})
  }

  class GameMaster {
    const userId: int
    const opponentId: int
    /** The data of the callback query being handled. */
    const callbackData: string
    const sessionId: string
    const storage: Storage
    const sessions: SessionManager
    const timers: TimerManager
    const bot: Bot

    /** `GameMaster(callback, context, opponent_id)`: the session id is computed from the two chat ids. */
    constructor (callbackUserId: int, callbackData: string, opponentId: int,
                 storage: Storage, sessions: SessionManager, timers: TimerManager, bot: Bot)
      ensures this.userId == callbackUserId && this.opponentId == opponentId
      ensures this.callbackData == callbackData
      ensures this.sessionId == GenerateSessionId(callbackUserId, opponentId)
      ensures this.storage == storage && this.sessions == sessions && this.timers == timers && this.bot == bot
    {
      this.userId := callbackUserId;
      this.opponentId := opponentId;
      this.callbackData := callbackData;
      this.sessionId := GenerateSessionId(callbackUserId, opponentId);
      this.storage := storage;
      this.sessions := sessions;
      this.timers := timers;
      this.bot := bot;
    }

    function Snap(): Snapshot
      reads storage, sessions, bot
    {
      Snapshot(storage.contexts, sessions.store, bot.log)
    }

    /** `answer`: the same text to the addressed chats (NOBODY leaves `message` unbound in the source). */
    method Answer(whom: PlayerCode, text: string)
      requires whom != NOBODY
      modifies bot
      ensures bot.log == old(bot.log) + Notices(Targets(whom, userId, opponentId), text)
    {
      match whom {
        case USER => bot.log := bot.log + [Sent(userId, text)];
        case OPPONENT => bot.log := bot.log + [Sent(opponentId, text)];
        case BOTH => bot.log := bot.log + [Sent(userId, text)] + [Sent(opponentId, text)];
      }
    }

    /** `update_date`: `update_data` on each addressed context; NOBODY matches no case. */
    method UpdateDate(whom: PlayerCode, d: Data)
      modifies storage
      ensures storage.contexts == UpdateEach(old(storage.contexts), Targets(whom, userId, opponentId), d)
    {
      match whom {
        case USER =>
          storage.contexts := UpdateDataOf(storage.contexts, userId, d);
        case OPPONENT =>
          storage.contexts := UpdateDataOf(storage.contexts, opponentId, d);
        case BOTH =>
          ghost var cs := storage.contexts;
          storage.contexts := UpdateDataOf(storage.contexts, userId, d);
          storage.contexts := UpdateDataOf(storage.contexts, opponentId, d);
          assert [userId, opponentId][..1] == [userId] && [userId][..0] == [];
          assert UpdateEach(cs, [userId], d) == UpdateDataOf(cs, userId, d);
        case NOBODY =>
      }
    }

    /** `get_data`: the addressed player's data; `{}` without reading for any other code. */
    method GetData(whom: PlayerCode) returns (d: Data)
      ensures whom == USER ==> d == Ctx(storage.contexts, userId).data
      ensures whom == OPPONENT ==> d == Ctx(storage.contexts, opponentId).data
      ensures whom == BOTH || whom == NOBODY ==> d == map[]
    {
      match whom {
        case USER => d := Ctx(storage.contexts, userId).data;
        case OPPONENT => d := Ctx(storage.contexts, opponentId).data;
        case _ => d := map[];
      }
    }

    /** `set_state`: `set_state` on each addressed context; NOBODY matches no case. */
    method SetState(whom: PlayerCode, p: Phase)
      modifies storage
      ensures storage.contexts == SetStateEach(old(storage.contexts), Targets(whom, userId, opponentId), p)
    {
      match whom {
        case USER =>
          storage.contexts := SetStateOf(storage.contexts, userId, p);
        case OPPONENT =>
          storage.contexts := SetStateOf(storage.contexts, opponentId, p);
        case BOTH =>
          ghost var cs := storage.contexts;
          storage.contexts := SetStateOf(storage.contexts, userId, p);
          storage.contexts := SetStateOf(storage.contexts, opponentId, p);
          assert [userId, opponentId][..1] == [userId] && [userId][..0] == [];
          assert SetStateEach(cs, [userId], p) == SetStateOf(cs, userId, p);
        case NOBODY =>
      }
    }

    /** `get_state`: the addressed player's state; `default_state` without reading for any other code. */
    method GetState(whom: PlayerCode) returns (p: Phase)
      ensures whom == USER ==> p == Ctx(storage.contexts, userId).state
      ensures whom == OPPONENT ==> p == Ctx(storage.contexts, opponentId).state
      ensures whom == BOTH || whom == NOBODY ==> p == Default
    {
      match whom {
        case USER => p := Ctx(storage.contexts, userId).state;
        case OPPONENT => p := Ctx(storage.contexts, opponentId).state;
        case _ => p := Default;
      }
    }

    /**
     * `delete_message`: for each addressed chat, deletes the message whose id
     * is stored under `key` (0 when it is not an int) and resets
     * `message_edited_id`. With NOBODY the target tuple is unbound and the
     * source raises; `raised` reports that, and nothing changes.
     */
    method DeleteMessage(whom: PlayerCode, key: string) returns (raised: bool)
      modifies storage, bot
      ensures raised <==> whom == NOBODY
      ensures var (cs, events) := DeleteEffects(old(storage.contexts), Targets(whom, userId, opponentId), key);
        storage.contexts == cs && bot.log == old(bot.log) + events
    {
      if whom == NOBODY {
        return true;
      }
      raised := false;
      var targets := Targets(whom, userId, opponentId);
      var i := 0;
      while i < |targets|
        invariant 0 <= i <= |targets|
        invariant storage.contexts == DeleteEffects(old(storage.contexts), targets[..i], key).0
        invariant bot.log == old(bot.log) + DeleteEffects(old(storage.contexts), targets[..i], key).1
      {
        var chatId := targets[i];
        var messageId := MessageIdOf(Ctx(storage.contexts, chatId).data, key);
        bot.log := bot.log + [Deleted(chatId, messageId)];
        storage.contexts := UpdateDataOf(storage.contexts, chatId, RESET_EDITED);
        assert targets[..i + 1][..i] == targets[..i];
        i := i + 1;
      }
      assert targets[..i] == targets;
    }

    /** `announce_winner`: tells the winner, tells the opponent their data names, and sets the winner's state. */
    method AnnounceWinner(winnerId: int)
      modifies storage, bot
      ensures bot.log == old(bot.log) + [Sent(winnerId, "you_win")] + LoserNotice(Ctx(old(storage.contexts), winnerId).data)
      ensures storage.contexts == SetStateOf(old(storage.contexts), winnerId, Winner)
    {
      bot.log := bot.log + [Sent(winnerId, "you_win")];
      var winnerData := Ctx(storage.contexts, winnerId).data;
      if "opponent_id" in winnerData && winnerData["opponent_id"].VInt? && Truthy(winnerData["opponent_id"]) {
        bot.log := bot.log + [Sent(winnerData["opponent_id"].i, "you_lose")];
      }
      storage.contexts := SetStateOf(storage.contexts, winnerId, Winner);
    }

    /** `start_first_hand_round`: prompts the user and moves only the user to `choice_action_for_first_hand`. */
    method StartFirstHandRound()
      modifies storage, bot
      ensures bot.log == old(bot.log) + [Sent(userId, "choose_action_for_first_hand")]
      ensures storage.contexts == SetStateOf(old(storage.contexts), userId, ChoiceActionForFirstHand)
    {
      Answer(USER, "choose_action_for_first_hand");
      SetState(USER, ChoiceActionForFirstHand);
    }

    /** `start_second_hand_round`: prompts the user and moves only the user to `choice_action_for_second_hand`. */
    method StartSecondHandRound()
      modifies storage, bot
      ensures bot.log == old(bot.log) + [Sent(userId, "choose_action_for_second_hand")]
      ensures storage.contexts == SetStateOf(old(storage.contexts), userId, ChoiceActionForSecondHand)
    {
      Answer(USER, "choose_action_for_second_hand");
      SetState(USER, ChoiceActionForSecondHand);
    }

    /** `start_hand_choice_round`: prompts both players and moves both to `choice_hand`. */
    method StartHandChoiceRound()
      modifies storage, bot
      ensures bot.log == old(bot.log) + Notices([userId, opponentId], "invitation_choose_remaining_hand")
      ensures Ctx(storage.contexts, userId).state == ChoiceHand && Ctx(storage.contexts, opponentId).state == ChoiceHand
      ensures storage.contexts == SetStateEach(old(storage.contexts), [userId, opponentId], ChoiceHand)
    {
      Answer(BOTH, "invitation_choose_remaining_hand");
      SetState(BOTH, ChoiceHand);
    }

    /** `process_first_hand`: records the callback data as `first_hand`; no state changes. */
    method ProcessFirstHand()
      modifies storage
      ensures storage.contexts == UpdateDataOf(old(storage.contexts), userId, map["first_hand" := VStr(callbackData)])
      ensures forall id :: Ctx(storage.contexts, id).state == Ctx(old(storage.contexts), id).state
    {
      UpdateDate(USER, map["first_hand" := VStr(callbackData)]);
    }

    /** `process_second_hand`: records `second_hand` and moves the user, and only the user, to `both_hands_ready`. */
    method ProcessSecondHand()
      modifies storage
      ensures Ctx(storage.contexts, userId)
           == Context(BothHandsReady, Ctx(old(storage.contexts), userId).data + map["second_hand" := VStr(callbackData)])
      ensures forall id | id != userId :: Ctx(storage.contexts, id) == Ctx(old(storage.contexts), id)
    {
      UpdateDate(USER, map["second_hand" := VStr(callbackData)]);
      SetState(USER, BothHandsReady);
    }

    /** `clear_states`: clears both players' contexts. */
    method ClearStates()
      modifies storage
      ensures storage.contexts == ClearOf(ClearOf(old(storage.contexts), userId), opponentId)
    {
      storage.contexts := ClearOf(storage.contexts, userId);
      storage.contexts := ClearOf(storage.contexts, opponentId);
    }

    /** `finish_game` as written (guard inverted): see `FinishAsWritten`. */
    method FinishGame(now: int)
      modifies storage, sessions, bot
      ensures Snap() == FinishAsWritten(old(Snap()), userId, opponentId, sessionId)
    {
      var session := sessions.GetSession(sessionId, now);
      if session.Some? {
        return;
      }
      Answer(BOTH, "game_finished");
      ClearStates();
      sessions.DeleteSession(sessionId);
    }

    /** `finish_game` with the guard as intended: see `FinishCorrected`. */
    method FinishGameCorrected(now: int)
      modifies storage, sessions, bot
      ensures Snap() == FinishCorrected(old(Snap()), userId, opponentId, sessionId)
    {
      var session := sessions.GetSession(sessionId, now);
      if session.None? {
        return;
      }
      Answer(BOTH, "game_finished");
      ClearStates();
      sessions.DeleteSession(sessionId);
    }

    /**
     * `schedule_timer` as written: the score handed to `zadd` is `next_tick`
     * itself, a `datetime`, so the call raises and no timer is scheduled.
     */
    method ScheduleTimer(timerName: string, frequency: int, timeout: int, now: int) returns (raised: bool)
      ensures raised
    {
      var timer := new GameTimer(sessionId, timerName, Some(frequency), Some(timeout), None, None, now);
      var element := timer.ModelDumpJson();
      var added := ZAdd(timers.Model(), element, DateTime(timer.nextTick.value));
      raised := added.None?;
    }

    /** `schedule_timer` through the registry: index entry and duplicate check included. */
    method ScheduleTimerCorrected(timerName: string, frequency: int, timeout: int, now: int) returns (ok: bool)
      requires TimerRegistry.Valid(timers.Model())
      modifies timers
      ensures TimerRegistry.Valid(timers.Model())
      ensures (timers.Model(), ok) == Schedule(old(timers.Model()), sessionId, timerName, frequency, timeout, now)
    {
      ok := timers.ScheduleTimer(sessionId, timerName, frequency, timeout, now);
    }

    /** `cancel_timeout` as written: removes a text that is never a timer element. */
    method CancelTimeout(timerName: string)
      modifies timers
      ensures timers.Model() == CancelAsWritten(old(timers.Model()), sessionId, timerName)
    {
      var element := Text(Join(sessionId, timerName));
      timers.zset := timers.zset - {element};
    }

    /** `cancel_timeout` through the registry's `delete_timer`. */
    method CancelTimeoutCorrected(timerName: string)
      requires TimerRegistry.Valid(timers.Model())
      modifies timers
      ensures TimerRegistry.Valid(timers.Model())
      ensures timers.Model() == Delete(old(timers.Model()), sessionId, timerName)
    {
      timers.DeleteTimer(sessionId, timerName);
    }
  }

  // ---------------------------------------------------------------------------
  // Properties

  /** The two players' managers compute the same session id. */
  lemma SameSessionForBothPlayers(userId: int, opponentId: int)
    ensures GenerateSessionId(userId, opponentId) == GenerateSessionId(opponentId, userId)
  {
  }

  /** Once both players have processed their second hand, the completion check answers BOTH. */
  lemma SecondHandsCompleteTheRound(cs: Contexts, userId: int, opponentId: int, hand1: string, hand2: string)
    requires userId != opponentId
    ensures var cs1 := SetStateOf(UpdateDataOf(cs, userId, map["second_hand" := VStr(hand1)]), userId, BothHandsReady);
      var cs2 := SetStateOf(UpdateDataOf(cs1, opponentId, map["second_hand" := VStr(hand2)]), opponentId, BothHandsReady);
      Classify(Ctx(cs2, userId).state, Ctx(cs2, opponentId).state) == BOTH
  {
  }

  /** `delete_message` for BOTH resets `message_edited_id` in both contexts and keeps the rest of their data. */
  lemma DeleteMessageResetsBoth(cs: Contexts, userId: int, opponentId: int, key: string)
    ensures var cs' := DeleteEffects(cs, [userId, opponentId], key).0;
      && Ctx(cs', userId).data == Ctx(cs, userId).data["message_edited_id" := VNone]
      && Ctx(cs', opponentId).data == Ctx(cs, opponentId).data["message_edited_id" := VNone]
      && Ctx(cs', userId).state == Ctx(cs, userId).state
      && Ctx(cs', opponentId).state == Ctx(cs, opponentId).state
  {
  }

  /**
   * As written, `finish_game` never ends a game whose session is stored: both
   * players keep their states and the session stays.
   */
  lemma FinishAsWrittenKeepsLiveGame(s: Snapshot, userId: int, opponentId: int, sessionId: string)
    requires Find(s.store, sessionId).Some?
    ensures FinishAsWritten(s, userId, opponentId, sessionId) == s
    ensures Find(FinishAsWritten(s, userId, opponentId, sessionId).store, sessionId).Some?
  {
  }

  /**
   * As written, `finish_game` on a game whose session is gone announces the
   * end again on every call.
   */
  lemma FinishAsWrittenRepeats(s: Snapshot, userId: int, opponentId: int, sessionId: string)
    requires Find(s.store, sessionId).None?
    ensures var twice := FinishAsWritten(FinishAsWritten(s, userId, opponentId, sessionId), userId, opponentId, sessionId);
      twice.log == s.log + Notices([userId, opponentId], "game_finished") + Notices([userId, opponentId], "game_finished")
  {
  }

  /**
   * Corrected, `finish_game` on a stored session notifies both players once,
   * clears both contexts and deletes the session; a second call changes nothing.
   */
  lemma FinishCorrectedRunsOnce(s: Snapshot, userId: int, opponentId: int, sessionId: string)
    requires Find(s.store, sessionId).Some?
    ensures var once := FinishCorrected(s, userId, opponentId, sessionId);
      && Find(once.store, sessionId).None?
      && Ctx(once.contexts, userId) == Blank && Ctx(once.contexts, opponentId) == Blank
      && once.log == s.log + [Sent(userId, "game_finished"), Sent(opponentId, "game_finished")]
      && FinishCorrected(once, userId, opponentId, sessionId) == once
  {
  }

  /**
   * As written, scheduling the same timer twice creates two elements for one
   * (session, name) pair, and none of them is in the index, so the registry's
   * `get_timer` and `delete_timer` cannot see them.
   */
  lemma BypassDuplicatesTimers(r: Registry, sessionId: string, timerName: string,
                               frequency: int, timeout: int, now1: int, now2: int)
    requires now1 != now2
    requires MakeTimerKey(sessionId, timerName) !in r.index
    ensures var r2 := ScheduleBypass(ScheduleBypass(r, sessionId, timerName, frequency, timeout, now1),
                                     sessionId, timerName, frequency, timeout, now2);
      && !UniqueKeys(r2.zset)
      && r2.index == r.index
      && Delete(r2, sessionId, timerName) == r2
  {
    var e1 := Json(NewRecord(sessionId, timerName, frequency, timeout, now1));
    var e2 := Json(NewRecord(sessionId, timerName, frequency, timeout, now2));
    var r2 := ScheduleBypass(ScheduleBypass(r, sessionId, timerName, frequency, timeout, now1),
                             sessionId, timerName, frequency, timeout, now2);
    assert e1 in r2.zset && e2 in r2.zset && SameKey(e1, e2) && e1 != e2;
    DeleteAbsentIsNoOp(r2, sessionId, timerName);
  }

  /** Through the registry, a second scheduling of the pair is refused and the first timer stays the only one. */
  lemma CorrectedScheduleRefusesDuplicate(r: Registry, sessionId: string, timerName: string,
                                          frequency: int, timeout: int, now1: int, now2: int)
    requires TimerRegistry.Valid(r) && Synced(r)
    requires MakeTimerKey(sessionId, timerName) !in r.index
    ensures var (r1, ok1) := Schedule(r, sessionId, timerName, frequency, timeout, now1);
      var (r2, ok2) := Schedule(r1, sessionId, timerName, frequency, timeout, now2);
      ok1 && !ok2 && r2 == r1 && UniqueKeys(r2.zset)
  {
  }

  /** As written, `cancel_timeout` leaves every timer element and the index as they were. */
  lemma CancelAsWrittenKeepsTimers(r: Registry, sessionId: string, timerName: string)
    ensures var r' := CancelAsWritten(r, sessionId, timerName);
      && r'.index == r.index
      && forall m | m in r.zset && m.Json? :: m in r'.zset && r'.zset[m] == r.zset[m]
  {
  }

  /** As written, a timer just scheduled through the registry survives `cancel_timeout` and keeps firing. */
  lemma CancelAsWrittenMissesScheduled(r: Registry, sessionId: string, timerName: string,
                                       frequency: int, timeout: int, now: int)
    requires TimerRegistry.Valid(r)
    requires MakeTimerKey(sessionId, timerName) !in r.index
    ensures var (r1, _) := Schedule(r, sessionId, timerName, frequency, timeout, now);
      var r2 := CancelAsWritten(r1, sessionId, timerName);
      Json(NewRecord(sessionId, timerName, frequency, timeout, now)) in r2.zset
      && Lookup(r2, sessionId, timerName) == Some(NewRecord(sessionId, timerName, frequency, timeout, now))
  {
  }

  /** Corrected, cancelling leaves no timer element for the pair, and the pair can be scheduled again. */
  lemma CancelCorrectedRemovesTimer(r: Registry, sessionId: string, timerName: string,
                                    frequency: int, timeout: int, now: int)
    requires TimerRegistry.Valid(r) && Synced(r)
    ensures var r' := Delete(r, sessionId, timerName);
      && (forall m | m in r'.zset && m.Json? :: KeyOf(m.rec) != MakeTimerKey(sessionId, timerName))
      && Schedule(r', sessionId, timerName, frequency, timeout, now).1
  {
  }
}
