/**
 * The pydantic records of shared/schemas/game_schemas.py: a game session and a
 * game timer, with their defaults, post-initialisation and serialised forms.
 * Times are integer milliseconds on one clock; a `datetime` carries a flag saying
 * whether it is timezone-aware.
 */
module Schemas {
  import opened Wrappers

  /** 10.0 seconds. */
  const DEFAULT_TIMEOUT: int := 10000
  /** 0.1 seconds. */
  const DEFAULT_FREQUENCY: int := 100

  /** A `datetime`: its instant and whether it has a `tzinfo`. */
  datatype Instant = Instant(millis: int, aware: bool)

  /** The JSON object a session serialises to. */
  datatype SessionRecord = SessionRecord(sessionId: string, status: string, createdAt: Instant)

  /** The JSON object a timer serialises to: every field except `timeout`. */
  datatype TimerRecord = TimerRecord(
    sessionId: string,
    timerName: string,
    frequency: int,
    expireAt: int,
    nextTick: int)

  /**
   * An element of the `game_timers` sorted set: the JSON text of a timer record,
   * or some other text, which does not parse as JSON.
   */
  datatype Member = Json(rec: TimerRecord) | Text(raw: string)

  /** `json.loads` on a sorted-set element; None stands for JSONDecodeError. */
  function Decode(m: Member): (r: Option<TimerRecord>)
    ensures r.Some? <==> m.Json?
    ensures m.Json? ==> r.value == m.rec
  {
    match m
    case Json(t) => Some(t)
    case Text(_) => None
  }

  /** The value a timestamp field takes after post-initialisation. */
  function FilledIn(given: Option<int>, now: int, span: int): int
  {
    if given.Some? then given.value else now + span
  }

  class GameSession {
    var sessionId: string
    var status: string
    var createdAt: Instant

    /**
     * `GameSession(session_id=..., status=..., created_at=...)` at time `now`:
     * an omitted `created_at` defaults to now (aware, UTC), and post-initialisation
     * replaces a naive one by now.
     */
    constructor (sessionId: string, status: string, createdAt: Option<Instant>, now: int)
      ensures this.sessionId == sessionId && this.status == status
      ensures createdAt.Some? && createdAt.value.aware ==> this.createdAt == createdAt.value
      ensures createdAt.None? || !createdAt.value.aware ==> this.createdAt == Instant(now, true)
      ensures this.createdAt.aware
    {
      this.sessionId := sessionId;
      this.status := status;
      this.createdAt := if createdAt.Some? then createdAt.value else Instant(now, true);
      new;
      ModelPostInit(now);
    }

    /** Replaces a timezone-naive `created_at` by the current (aware) time. */
    method ModelPostInit(now: int)
      modifies this
      ensures sessionId == old(sessionId) && status == old(status)
      ensures old(createdAt).aware ==> createdAt == old(createdAt)
      ensures !old(createdAt).aware ==> createdAt == Instant(now, true)
    {
      if !createdAt.aware {
        createdAt := Instant(now, true);
      }
    }

    /** `model_dump_json()`: all three fields. */
    function ModelDumpJson(): (d: SessionRecord)
      reads this
      ensures d.sessionId == sessionId && d.status == status && d.createdAt == createdAt
    {
      SessionRecord(sessionId, status, createdAt)
    }
  }

  class GameTimer {
    var sessionId: string
    var timerName: string
    var frequency: int
    var timeout: int
    var expireAt: Option<int>
    var nextTick: Option<int>

    /** After post-initialisation neither timestamp is None. */
    ghost predicate Valid()
      reads this
    {
      expireAt.Some? && nextTick.Some?
    }

    /**
     * `GameTimer(...)` at time `now`: omitted `frequency` and `timeout` take the
     * defaults, then post-initialisation fills in the omitted timestamps.
     */
    constructor (sessionId: string, timerName: string, frequency: Option<int>, timeout: Option<int>,
                 expireAt: Option<int>, nextTick: Option<int>, now: int)
      ensures Valid()
      ensures this.sessionId == sessionId && this.timerName == timerName
      ensures this.frequency == if frequency.Some? then frequency.value else DEFAULT_FREQUENCY
      ensures this.timeout == if timeout.Some? then timeout.value else DEFAULT_TIMEOUT
      ensures this.expireAt.value == FilledIn(expireAt, now, this.timeout)
      ensures this.nextTick.value == FilledIn(nextTick, now, this.frequency)
    {
      this.sessionId := sessionId;
      this.timerName := timerName;
      this.frequency := if frequency.Some? then frequency.value else DEFAULT_FREQUENCY;
      this.timeout := if timeout.Some? then timeout.value else DEFAULT_TIMEOUT;
      this.expireAt := expireAt;
      this.nextTick := nextTick;
      new;
      ModelPostInit(now);
    }

    /** Fills in `expire_at = now + timeout` and `next_tick = now + frequency` where they are None. */
    method ModelPostInit(now: int)
      modifies this
      ensures Valid()
      ensures sessionId == old(sessionId) && timerName == old(timerName)
      ensures frequency == old(frequency) && timeout == old(timeout)
      ensures expireAt.value == FilledIn(old(expireAt), now, timeout)
      ensures nextTick.value == FilledIn(old(nextTick), now, frequency)
    {
      if expireAt.None? {
        expireAt := Some(now + timeout);
      }
      if nextTick.None? {
        nextTick := Some(now + frequency);
      }
    }

    /** `model_dump()`: the field dictionary with `timeout` popped. */
    function ModelDump(): (d: TimerRecord)
      reads this
      requires Valid()
      ensures d.sessionId == sessionId && d.timerName == timerName && d.frequency == frequency
      ensures d.expireAt == expireAt.value && d.nextTick == nextTick.value
    {
      TimerRecord(sessionId, timerName, frequency, expireAt.value, nextTick.value)
    }

    /** `model_dump_json()`: the JSON text of the same dictionary (`timeout` excluded). */
    function ModelDumpJson(): (m: Member)
      reads this
      requires Valid()
      ensures Decode(m) == Some(ModelDump())
    {
      Json(ModelDump())
    }
  }
}
