/**
 * The session store of shared/repositories/redis/session.py: serialised
 * sessions under the key "session:<session_id>", and the symmetric session id
 * "<min>:<max>" of two chat ids.
 */
module SessionStore {
  import opened Wrappers
  import opened Strings
  import opened Schemas

  const PREFIX: string := "session:"

  /** The store key of a session id. */
  function SessionKey(sessionId: string): (key: string)
    ensures |key| == |PREFIX| + |sessionId|
    ensures key[..|PREFIX|] == PREFIX && key[|PREFIX|..] == sessionId
  {
    PREFIX + sessionId
  }

  lemma SessionKeyInjective(a: string, b: string)
    requires SessionKey(a) == SessionKey(b)
    ensures a == b
  {
    assert a == SessionKey(a)[|PREFIX|..];
  }

  /** The key-value contents after `save_session` (the TTL is not modelled). */
  function Saved(store: map<string, SessionRecord>, rec: SessionRecord): (s: map<string, SessionRecord>)
    ensures Find(s, rec.sessionId) == Some(rec)
    ensures forall id :: id != rec.sessionId ==> Find(s, id) == Find(store, id)
  {
    var s := store[SessionKey(rec.sessionId) := rec];
    assert forall id | id != rec.sessionId :: SessionKey(id) != SessionKey(rec.sessionId) by {
      forall id | id != rec.sessionId ensures SessionKey(id) != SessionKey(rec.sessionId) {
        if SessionKey(id) == SessionKey(rec.sessionId) { SessionKeyInjective(id, rec.sessionId); }
      }
    }
    s
  }

  /** The stored record for a session id, if any. */
  function Find(store: map<string, SessionRecord>, sessionId: string): (r: Option<SessionRecord>)
    ensures r.None? <==> SessionKey(sessionId) !in store
  {
    var key := SessionKey(sessionId);
    if key in store then Some(store[key]) else None
  }

  /** The key-value contents after `delete_session`. */
  function Removed(store: map<string, SessionRecord>, sessionId: string): (s: map<string, SessionRecord>)
    ensures Find(s, sessionId) == None
    ensures forall id :: id != sessionId ==> Find(s, id) == Find(store, id)
    ensures Find(store, sessionId) == None ==> s == store
  {
    var s := store - {SessionKey(sessionId)};
    assert forall id | id != sessionId :: SessionKey(id) != SessionKey(sessionId) by {
      forall id | id != sessionId ensures SessionKey(id) != SessionKey(sessionId) {
        if SessionKey(id) == SessionKey(sessionId) { SessionKeyInjective(id, sessionId); }
      }
    }
    s
  }

  /**
   * The record a loaded session dumps to: parsing keeps every field, and
   * post-initialisation replaces a naive `created_at` by the time of loading.
   */
  function Reloaded(rec: SessionRecord, now: int): (r: SessionRecord)
    ensures r.sessionId == rec.sessionId && r.status == rec.status
    ensures rec.createdAt.aware ==> r == rec
    ensures !rec.createdAt.aware ==> r.createdAt == Instant(now, true)
    ensures r.createdAt.aware
  {
    if rec.createdAt.aware then rec else rec.(createdAt := Instant(now, true))
  }

  /** `generate_session_id`: the two ids in ascending order, joined by ':'. */
  function GenerateSessionId(userId: int, opponentId: int): (id: string)
    ensures var lo, hi := if userId <= opponentId then userId else opponentId, if userId <= opponentId then opponentId else userId;
      && |id| == |IntToString(lo)| + 1 + |IntToString(hi)|
      && id[..|IntToString(lo)|] == IntToString(lo)
      && id[|IntToString(lo)|] == ':'
      && id[|IntToString(lo)| + 1..] == IntToString(hi)
  {
    if userId <= opponentId then Join(IntToString(userId), IntToString(opponentId))
    else Join(IntToString(opponentId), IntToString(userId))
  }

  /** Both players of a pair compute the same id. */
  lemma GenerateSessionIdSymmetric(a: int, b: int)
    ensures GenerateSessionId(a, b) == GenerateSessionId(b, a)
  {
  }

  /** The id determines the unordered pair: different pairs never share a session. */
  lemma GenerateSessionIdInjective(a: int, b: int, c: int, d: int)
    requires GenerateSessionId(a, b) == GenerateSessionId(c, d)
    ensures (a == c && b == d) || (a == d && b == c)
  {
    var lo1, hi1 := if a <= b then a else b, if a <= b then b else a;
    var lo2, hi2 := if c <= d then c else d, if c <= d then d else c;
    assert GenerateSessionId(a, b) == Join(IntToString(lo1), IntToString(hi1));
    assert GenerateSessionId(c, d) == Join(IntToString(lo2), IntToString(hi2));
    JoinInjective(IntToString(lo1), IntToString(hi1), IntToString(lo2), IntToString(hi2));
    IntToStringInjective(lo1, lo2);
    IntToStringInjective(hi1, hi2);
  }

  /** `SessionManager`: a connection to the key-value store and the key prefix. */
  class SessionManager {
    var store: map<string, SessionRecord>
    const prefix: string := PREFIX

    constructor ()
      ensures store == map[]
    {
      store := map[];
    }

    /** `save_session`: stores the session's JSON under its key; `ttl` is accepted and not modelled. */
    method SaveSession(session: GameSession, ttl: int)
      modifies this
      ensures store == Saved(old(store), session.ModelDumpJson())
    {
      var key := prefix + session.sessionId;
      store := store[key := session.ModelDumpJson()];
    }

    /** `get_session`: None for an absent key, else a session built from the stored JSON at time `now`. */
    method GetSession(sessionId: string, now: int) returns (session: Option<GameSession>)
      ensures session.None? <==> Find(store, sessionId).None?
      ensures session.Some? ==>
        && fresh(session.value)
        && session.value.ModelDumpJson() == Reloaded(Find(store, sessionId).value, now)
    {
      var key := prefix + sessionId;
      if key in store {
        var data := store[key];
        var s := new GameSession(data.sessionId, data.status, Some(data.createdAt), now);
        session := Some(s);
      } else {
        session := None;
      }
    }

    /** `delete_session`: removes the key; an absent key is a no-op. */
    method DeleteSession(sessionId: string)
      modifies this
      ensures store == Removed(old(store), sessionId)
    {
      var key := prefix + sessionId;
      store := store - {key};
    }
  }

  /**
   * Loading what `save_session` stored gives back a session with the same
   * fields, for every session built by the constructor (whose `created_at` is
   * aware).
   */
  lemma SaveThenGet(store: map<string, SessionRecord>, rec: SessionRecord, now: int)
    requires rec.createdAt.aware
    ensures Find(Saved(store, rec), rec.sessionId).Some?
    ensures Reloaded(Find(Saved(store, rec), rec.sessionId).value, now) == rec
  {
  }
}
