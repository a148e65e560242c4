/**
 * The older, in-memory game manager (handlers/user_handlers/game_managers.py):
 * a class-level registry of game sessions keyed by the sorted pair of chat
 * ids, a `GameMaster` that gets or creates its session, a `finish_game` that
 * runs at most once per session, and two polling loops. What the polls read
 * (the two players' states, the opponent's data) is written concurrently by
 * other handlers, so each poll's reading is an oracle indexed by the poll
 * number.
 */
module LegacyGame {
  import opened Enums
  import opened States
  import opened Fsm
  import opened Completion

  type SessionId = (int, int)

  /** `GameSession.generate_session_id`: the two ids in ascending order. */
  function GenerateSessionId(userId: int, opponentId: int): (id: SessionId)
    ensures id.0 <= id.1
    ensures (id.0 == userId && id.1 == opponentId) || (id.0 == opponentId && id.1 == userId)
  {
    if userId <= opponentId then (userId, opponentId) else (opponentId, userId)
  }

  /** Both players of a pair get the same id, and a pair's id names no other pair. */
  lemma GenerateSessionIdSymmetric(a: int, b: int, c: int, d: int)
    ensures GenerateSessionId(a, b) == GenerateSessionId(b, a)
    ensures GenerateSessionId(a, b) == GenerateSessionId(c, d) ==> (a == c && b == d) || (a == d && b == c)
  {
  }

  /** The class attribute `GameSession.sessions`. */
  class Registry {
    var sessions: map<SessionId, GameSession>

    /** Every session is registered under its own id. */
    ghost predicate Valid()
      reads this
    {
      forall id | id in sessions :: sessions[id].sessionId == id
    }

    constructor ()
      ensures sessions == map[] && Valid()
    {
      sessions := map[];
    }
  }

  class GameSession {
    const sessionId: SessionId

    /** `GameSession(session_id)`: registers the new object under its id (replacing any earlier one). */
    constructor (sessionId: SessionId, registry: Registry)
      requires registry.Valid()
      modifies registry
      ensures registry.Valid()
      ensures this.sessionId == sessionId
      ensures registry.sessions == old(registry.sessions)[sessionId := this]
    {
      this.sessionId := sessionId;
      new;
      registry.sessions := registry.sessions[sessionId := this];
    }

    /** `delete`: unregisters the id; the source raises KeyError when it is absent. */
    method Delete(registry: Registry)
      requires sessionId in registry.sessions && registry.Valid()
      modifies registry
      ensures registry.Valid()
      ensures registry.sessions == old(registry.sessions) - {sessionId}
    {
      registry.sessions := registry.sessions - {sessionId};
    }
  }

  /** What `finish_game` reads and writes: the contexts, the registered ids and the chat log. */
  datatype Table = Table(contexts: Contexts, live: set<SessionId>, log: seq<Event>)

  /** `finish_game`: if the session is still registered, notify both, clear both, unregister. */
  function Finish(t: Table, userId: int, opponentId: int, sessionId: SessionId): (t': Table)
    ensures sessionId !in t'.live
    ensures t'.live == t.live - {sessionId}
    ensures sessionId !in t.live ==> t' == t
    ensures sessionId in t.live ==> Ctx(t'.contexts, userId) == Blank && Ctx(t'.contexts, opponentId) == Blank
    ensures sessionId in t.live ==> t'.log == t.log + [Sent(opponentId, "game_cancelled"), Sent(userId, "game_cancelled")]
  {
    if sessionId !in t.live then t
    else Table(ClearOf(ClearOf(t.contexts, userId), opponentId),
               t.live - {sessionId},
               t.log + [Sent(opponentId, "game_cancelled"), Sent(userId, "game_cancelled")])
  }

  /**
   * The first `finish_game` on a registered session notifies both players,
   * clears both contexts and unregisters the session; any later call is a no-op.
   */
  lemma FinishRunsOnce(t: Table, userId: int, opponentId: int, sessionId: SessionId)
    requires sessionId in t.live
    ensures var once := Finish(t, userId, opponentId, sessionId);
      && sessionId !in once.live
      && once.live == t.live - {sessionId}
      && Ctx(once.contexts, userId) == Blank && Ctx(once.contexts, opponentId) == Blank
      && once.log == t.log + [Sent(opponentId, "game_cancelled"), Sent(userId, "game_cancelled")]
      && Finish(once, userId, opponentId, sessionId) == once
  {
  }

  /** Players done with both hands at poll k. */
  predicate BothDone(states: (Phase, Phase))
  {
    Complete(states.0) && Complete(states.1)
  }

  /** The opponent's data cancels the wait: `ready_to_play` is False or `opponent_id` is missing. */
  predicate Cancels(data: Data)
  {
    ("ready_to_play" in data && data["ready_to_play"] == VBool(false)) || "opponent_id" !in data
  }

  /** The opponent's data ends the wait with consent: `ready_to_play` is True. */
  predicate Accepts(data: Data)
  {
    !Cancels(data) && "ready_to_play" in data && data["ready_to_play"] == VBool(true)
  }

  /** The steps, below `n`, at which the waiting message is sent: the multiples of `period`. */
  function Pings(n: nat, period: int): (steps: seq<nat>)
    requires period != 0
    ensures forall k: nat :: k in steps <==> k < n && k % period == 0
    ensures forall i, j | 0 <= i < j < |steps| :: steps[i] < steps[j]
  {
    if n == 0 then []
    else
      var pre := Pings(n - 1, period);
      assert forall i | 0 <= i < |pre| :: pre[i] < n - 1 by {
        forall i | 0 <= i < |pre| ensures pre[i] < n - 1 {
          var k: nat := pre[i];
          assert k in pre;
        }
      }
      pre + (if (n - 1) % period == 0 then [n - 1] else [])
  }

  /** How `wait_opponent_consent` ends. */
  datatype Consent =
    | Consented     // returns
    | Cancelled     // raises CancelledError
    | TimedOut      // cancelled from outside by the deadline
    | ZeroDivision  // `1 / update_frequency` or `steps % 0`

  class GameMaster {
    const userId: int
    const opponentId: int
    const sessionId: SessionId
    const session: GameSession
    const registry: Registry
    const storage: Storage
    const bot: Bot

    /**
     * `GameMaster(callback, context, opponent_id)`: reuses the session
     * registered under the pair's id, or creates and registers a new one.
     */
    constructor (callbackUserId: int, opponentId: int, registry: Registry, storage: Storage, bot: Bot)
      requires registry.Valid()
      modifies registry
      ensures Valid()
      ensures this.userId == callbackUserId && this.opponentId == opponentId
      ensures this.registry == registry && this.storage == storage && this.bot == bot
      ensures sessionId == GenerateSessionId(callbackUserId, opponentId)
      ensures session.sessionId == sessionId
      ensures sessionId in registry.sessions && registry.sessions[sessionId] == session
      ensures sessionId in old(registry.sessions) ==>
        session == old(registry.sessions)[sessionId] && registry.sessions == old(registry.sessions)
      ensures sessionId !in old(registry.sessions) ==>
        fresh(session) && registry.sessions == old(registry.sessions)[sessionId := session]
    {
      var id := GenerateSessionId(callbackUserId, opponentId);
      var s: GameSession;
      if id in registry.sessions {
        s := registry.sessions[id];
      } else {
        s := new GameSession(id, registry);
      }
      this.userId := callbackUserId;
      this.opponentId := opponentId;
      this.sessionId := id;
      this.session := s;
      this.registry := registry;
      this.storage := storage;
      this.bot := bot;
    }

    ghost predicate Valid()
      reads this, registry
    {
      session.sessionId == sessionId && registry.Valid()
    }

    function Tab(): Table
      reads storage, registry, bot
    {
      Table(storage.contexts, registry.sessions.Keys, bot.log)
    }

    /** `announce_winner`: tells the winner, tells the opponent their data names, and sets the winner's state. */
    method AnnounceWinner(winnerId: int)
      modifies storage, bot
      ensures bot.log == old(bot.log) + [Sent(winnerId, "you_win")] + LoserNotice(Ctx(old(storage.contexts), winnerId).data)
      ensures storage.contexts == SetStateOf(old(storage.contexts), winnerId, Winner)
    {
      bot.log := bot.log + [Sent(winnerId, "you_win")];
      var winnerData := Ctx(storage.contexts, winnerId).data;
      if "opponent_id" in winnerData && winnerData["opponent_id"].VInt? && Truthy(winnerData["opponent_id"]) {
        bot.log := bot.log + [Sent(winnerData["opponent_id"].i, "you_lose")];
      }
      storage.contexts := SetStateOf(storage.contexts, winnerId, Winner);
    }

    /** `start_hand_choice_round`: two messages to the user, then both players to `choice_hand`. */
    method StartHandChoiceRound()
      modifies storage, bot
      ensures bot.log == old(bot.log) + [Sent(userId, "opponent_ready_to_play"), Sent(userId, "invitation_choose_action")]
      ensures Ctx(storage.contexts, userId).state == ChoiceHand && Ctx(storage.contexts, opponentId).state == ChoiceHand
      ensures storage.contexts == SetStateOf(SetStateOf(old(storage.contexts), userId, ChoiceHand), opponentId, ChoiceHand)
    {
      bot.log := bot.log + [Sent(userId, "opponent_ready_to_play")];
      bot.log := bot.log + [Sent(userId, "invitation_choose_action")];
      storage.contexts := SetStateOf(storage.contexts, userId, ChoiceHand);
      storage.contexts := SetStateOf(storage.contexts, opponentId, ChoiceHand);
    }

    /** `finish_game`: see `Finish`; the lock that makes it atomic is not modelled. */
    method FinishGame()
      requires Valid()
      modifies storage, registry, bot
      ensures Valid()
      ensures Tab() == Finish(old(Tab()), userId, opponentId, sessionId)
      ensures registry.sessions == old(registry.sessions) - {sessionId}
    {
      if sessionId !in registry.sessions {
        return;
      }
      bot.log := bot.log + [Sent(opponentId, "game_cancelled")];
      bot.log := bot.log + [Sent(userId, "game_cancelled")];
      storage.contexts := ClearOf(storage.contexts, userId);
      storage.contexts := ClearOf(storage.contexts, opponentId);
      session.Delete(registry);
    }

    /**
     * `wait_for_hands_completion`: polls the two states every `checkInterval`
     * until both are complete, or until `timeout` has elapsed, and then
     * classifies. `observe(k)` is the pair of states read at poll k, which
     * happens `k * checkInterval` after the start.
     */
    method WaitForHandsCompletion(timeout: int, checkInterval: int, observe: nat -> (Phase, Phase))
      returns (code: PlayerCode, polls: nat)
      requires checkInterval > 0
      ensures code == Classify(observe(polls).0, observe(polls).1)
      ensures code == BOTH <==> BothDone(observe(polls))
      ensures code != BOTH ==> polls * checkInterval >= timeout
      ensures forall k: nat | k < polls :: !BothDone(observe(k)) && k * checkInterval < timeout
    {
      var k: nat := 0;
      while true
        invariant forall j: nat | j < k :: !BothDone(observe(j)) && j * checkInterval < timeout
        decreases timeout - k * checkInterval
      {
        var (userState, oppState) := observe(k);
        var userComplete := Complete(userState);
        var oppComplete := Complete(oppState);
        if userComplete && oppComplete {
          return BOTH, k;
        }
        var elapsed := k * checkInterval;
        if elapsed >= timeout {
          if userComplete && !oppComplete {
            return USER, k;
          } else if oppComplete && !userComplete {
            return OPPONENT, k;
          } else {
            return NOBODY, k;
          }
        }
        k := k + 1;
      }
    }

    /**
     * `run_delayed_start_hand_choice_round_task`: waits, then acts on the
     * outcome: BOTH starts the hand-choice round, USER or OPPONENT is
     * announced the winner, NOBODY finishes the game.
     */
    method RunDelayedStartHandChoiceRound(timeout: int, checkInterval: int, observe: nat -> (Phase, Phase))
      returns (code: PlayerCode, polls: nat)
      requires checkInterval > 0 && Valid()
      modifies storage, registry, bot
      ensures code == Classify(observe(polls).0, observe(polls).1)
      ensures code != BOTH ==> polls * checkInterval >= timeout
      ensures forall k: nat | k < polls :: !BothDone(observe(k)) && k * checkInterval < timeout
      ensures code == BOTH ==>
        && storage.contexts == SetStateOf(SetStateOf(old(storage.contexts), userId, ChoiceHand), opponentId, ChoiceHand)
        && bot.log == old(bot.log) + [Sent(userId, "opponent_ready_to_play"), Sent(userId, "invitation_choose_action")]
      ensures code == USER ==>
        && storage.contexts == SetStateOf(old(storage.contexts), userId, Winner)
        && bot.log == old(bot.log) + [Sent(userId, "you_win")] + LoserNotice(Ctx(old(storage.contexts), userId).data)
      ensures code == OPPONENT ==>
        && storage.contexts == SetStateOf(old(storage.contexts), opponentId, Winner)
        && bot.log == old(bot.log) + [Sent(opponentId, "you_win")] + LoserNotice(Ctx(old(storage.contexts), opponentId).data)
      ensures code == NOBODY ==>
        && Tab() == Finish(old(Tab()).(log := old(bot.log) + [Sent(userId, "both_are_too_long")]), userId, opponentId, sessionId)
        && registry.sessions == old(registry.sessions) - {sessionId}
      ensures code != NOBODY ==> registry.sessions == old(registry.sessions)
    {
      code, polls := WaitForHandsCompletion(timeout, checkInterval, observe);
      match code {
        case BOTH =>
          StartHandChoiceRound();
        case USER =>
          AnnounceWinner(userId);
        case OPPONENT =>
          AnnounceWinner(opponentId);
        case NOBODY =>
          bot.log := bot.log + [Sent(userId, "both_are_too_long")];
          FinishGame();
      }
    }

    /**
     * `wait_opponent_consent`: polls the opponent's data (`observe(k)` at step
     * k) until it consents or cancels, sending the waiting message on every
     * step divisible by `sendEvery * updateFrequency`. The asyncio task that runs it is
     * cancelled after `limit` steps. Returns the outcome, the step it ended
     * on, and the steps at which the message was sent.
     */
    method WaitOpponentConsent(sendEvery: int, updateFrequency: int, limit: nat, observe: nat -> Data)
      returns (outcome: Consent, steps: nat, sentAt: seq<nat>)
      ensures updateFrequency == 0 ==> outcome == ZeroDivision && steps == 0 && sentAt == []
      ensures steps <= limit
      ensures forall k: nat | k < steps :: !Cancels(observe(k)) && !Accepts(observe(k))
      ensures outcome == Consented ==> steps < limit && Accepts(observe(steps))
      ensures outcome == Cancelled ==> steps < limit && Cancels(observe(steps))
      ensures outcome == TimedOut ==> steps == limit
      ensures sendEvery * updateFrequency == 0 && limit > 0 ==> outcome != TimedOut
      ensures outcome == ZeroDivision && updateFrequency != 0 ==>
        sendEvery == 0 && steps == 0 && 0 < limit && !Cancels(observe(0)) && !Accepts(observe(0))
      ensures sendEvery * updateFrequency != 0 ==> sentAt == Pings(steps, sendEvery * updateFrequency)
      ensures sendEvery * updateFrequency == 0 ==> sentAt == []
    {
      steps, sentAt := 0, [];
      if updateFrequency == 0 {
        return ZeroDivision, steps, sentAt;
      }
      var period := sendEvery * updateFrequency;
      while steps < limit
        invariant steps <= limit
        invariant forall k: nat | k < steps :: !Cancels(observe(k)) && !Accepts(observe(k))
        invariant period != 0 ==> sentAt == Pings(steps, period)
        invariant period == 0 ==> steps == 0 && sentAt == []
      {
        var opponentData := observe(steps);
        if Cancels(opponentData) {
          return Cancelled, steps, sentAt;
        }
        if Accepts(opponentData) {
          return Consented, steps, sentAt;
        }
        if period == 0 {
          return ZeroDivision, steps, sentAt;
        }
        if steps % period == 0 {
          sentAt := sentAt + [steps];
        }
        steps := steps + 1;
      }
      outcome := TimedOut;
    }
  }

  /**
   * Completion is checked before the timeout: if both players are done at a
   * poll, the wait answers BOTH even when the timeout has already elapsed.
   */
  lemma BothWinsOverTimeout(observe: nat -> (Phase, Phase), k: nat)
    requires BothDone(observe(k))
    ensures Classify(observe(k).0, observe(k).1) == BOTH
  {
  }
}
