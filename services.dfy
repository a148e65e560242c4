/**
 * The game rules and the bot's move (services/services.py and its copy in
 * shared/services/services.py, whose `get_winner` and `get_bot_choice` are the
 * same code): a move beats the one the `rules` table maps it to.
 */
module Rules {
  import opened Wrappers

  const MOVES: set<string> := {"rock", "paper", "scissors"}

  /** `rules`: each move and the move it beats. */
  const RULES: map<string, string> := map["rock" := "scissors", "scissors" := "paper", "paper" := "rock"]

  /** The beats relation of the game, stated pair by pair. */
  predicate Beats(a: string, b: string)
  {
    (a == "rock" && b == "scissors") || (a == "scissors" && b == "paper") || (a == "paper" && b == "rock")
  }

  /**
   * `get_winner(user_choice, bot_choice)`; None stands for the KeyError that
   * `rules[user_choice]` raises for an unknown, non-drawn user move.
   */
  function GetWinner(userChoice: string, botChoice: string): (w: Option<string>)
    ensures userChoice in MOVES ==> w.Some?
    ensures w.Some? ==> w.value in {"nobody_won", "user_won", "bot_won"}
    ensures w == Some("nobody_won") <==> userChoice == botChoice
  {
    if userChoice == botChoice then Some("nobody_won")
    else if userChoice !in RULES then None
    else if RULES[userChoice] == botChoice then Some("user_won")
    else Some("bot_won")
  }

  /** The rules table is the beats relation, and every move beats exactly one other. */
  lemma RulesAreBeats()
    ensures RULES.Keys == MOVES
    ensures forall a, b | a in RULES :: RULES[a] == b <==> Beats(a, b)
    ensures forall a | a in MOVES :: RULES[a] in MOVES && RULES[a] != a
  {
  }

  /**
   * On valid moves: a draw is "nobody_won", a win under `Beats` is
   * "user_won", anything else "bot_won"; the result is always one of the three.
   */
  lemma GetWinnerMatchesBeats(a: string, b: string)
    requires a in MOVES && b in MOVES
    ensures GetWinner(a, b) == Some(if a == b then "nobody_won" else if Beats(a, b) then "user_won" else "bot_won")
    ensures GetWinner(a, b).value in {"nobody_won", "user_won", "bot_won"}
  {
    RulesAreBeats();
  }

  /** Rock beats scissors, scissors beats paper, paper beats rock. */
  lemma ThreeWins()
    ensures GetWinner("rock", "scissors") == Some("user_won")
    ensures GetWinner("scissors", "paper") == Some("user_won")
    ensures GetWinner("paper", "rock") == Some("user_won")
  {
  }

  /** A draw whatever the move, valid or not. */
  lemma DrawAnyMove(a: string)
    ensures GetWinner(a, a) == Some("nobody_won")
  {
  }

  /** For distinct valid moves, the user wins one order exactly when the bot wins the other. */
  lemma GetWinnerAntisymmetric(a: string, b: string)
    requires a in MOVES && b in MOVES && a != b
    ensures GetWinner(a, b) == Some("user_won") <==> GetWinner(b, a) == Some("bot_won")
  {
    GetWinnerMatchesBeats(a, b);
    GetWinnerMatchesBeats(b, a);
  }

  /** The error case: KeyError exactly for a user move outside the table that differs from the bot's. */
  lemma GetWinnerFailsOnUnknownMove(a: string, b: string)
    ensures GetWinner(a, b).None? <==> a != b && a !in MOVES
  {
    RulesAreBeats();
  }

  /** `get_bot_choice`: a random one of the three moves. */
  method GetBotChoice() returns (choice: string)
    ensures choice in MOVES
  {
    choice :| choice in MOVES;
  }
}

/**
 * The presence table of bot/src/database/db.py (last activity per user, kept
 * for `online_duration`) and the random opponent pick of
 * shared/services/services.py. Timestamps are integers on one monotonic clock.
 */
module Presence {
  import opened Wrappers

  /** The users `cleanup` at `now` keeps: those seen less than `duration` ago, with their timestamps. */
  function Survivors(users: map<int, int>, now: int, duration: int): (kept: map<int, int>)
    ensures forall u :: u in kept <==> u in users && now - users[u] < duration
    ensures forall u | u in kept :: kept[u] == users[u]
  {
    map u | u in users && now - users[u] < duration :: users[u]
  }

  /** A second `cleanup` at the same time removes nothing more. */
  lemma CleanupIdempotent(users: map<int, int>, now: int, duration: int)
    ensures Survivors(Survivors(users, now, duration), now, duration) == Survivors(users, now, duration)
  {
    var once := Survivors(users, now, duration);
    assert Survivors(once, now, duration).Keys == once.Keys;
  }

  /** A user set online at `now` survives `cleanup` at `now` when the duration is positive; others are as before. */
  lemma JustSeenSurvives(users: map<int, int>, u: int, now: int, duration: int)
    requires duration > 0
    ensures var kept := Survivors(users[u := now], now, duration);
      && u in kept && kept[u] == now
      && forall v | v != u :: (v in kept <==> v in Survivors(users, now, duration))
  {
  }

  /** A set with no member is empty. */
  lemma NoMemberMeansEmpty(s: set<int>)
    ensures (forall x :: x !in s) ==> s == {}
  {
    if forall x :: x !in s {
      assert s == {};
    }
  }

  /** A map with no key is empty. */
  lemma NoKeyMeansEmpty(m: map<int, int>)
    ensures (forall x :: x !in m) ==> |m| == 0
  {
    if forall x :: x !in m {
      assert m == map[];
    }
  }

  class OnlineUsers {
    const onlineDuration: int
    var users: map<int, int>

    constructor (onlineDuration: int)
      ensures this.onlineDuration == onlineDuration && users == map[]
    {
      this.onlineDuration := onlineDuration;
      users := map[];
    }

    /** `set_online`: records `now` as the user's last activity; other users are untouched. */
    method SetOnline(userId: int, now: int)
      modifies this
      ensures users == old(users)[userId := now]
    {
      users := users[userId := now];
    }

    /** `cleanup`: collects the expired users, then deletes them one by one. */
    method Cleanup(now: int)
      modifies this
      ensures users == Survivors(old(users), now, onlineDuration)
      ensures forall u | u in users :: now - users[u] < onlineDuration
    {
      var toRemove := set u | u in users && now - users[u] >= onlineDuration;
      ghost var start := users;
      while toRemove != {}
        invariant toRemove <= users.Keys
        invariant forall u :: u in users <==> u in start && (now - start[u] < onlineDuration || u in toRemove)
        invariant forall u | u in users :: users[u] == start[u]
        decreases toRemove
      {
        NoMemberMeansEmpty(toRemove);
        var u :| u in toRemove;
        users := users - {u};
        toRemove := toRemove - {u};
      }
      assert forall u :: u !in toRemove;
      assert forall u :: u in users <==> u in Survivors(start, now, onlineDuration);
      assert users.Keys == Survivors(start, now, onlineDuration).Keys;
      assert forall u | u in users :: users[u] == Survivors(start, now, onlineDuration)[u];
      assert users == Survivors(start, now, onlineDuration);
    }
  }

  /**
   * `get_random_online_user(except_user_id)`: a random online user other than
   * the requester; None stands for the IndexError raised when there is none.
   * It reads a copy of the table and changes nothing.
   */
  method GetRandomOnlineUser(online: OnlineUsers, exceptUserId: int) returns (opponent: Option<int>)
    ensures opponent.None? <==> online.users.Keys <= {exceptUserId}
    ensures opponent.Some? ==> opponent.value in online.users && opponent.value != exceptUserId
  {
    var users := online.users;
    users := users - {exceptUserId};
    if |users| == 0 {
      assert users.Keys == {};
      return None;
    }
    NoKeyMeansEmpty(users);
    var id :| id in users;
    opponent := Some(id);
  }
}
