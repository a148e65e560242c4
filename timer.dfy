/**
 * The timer registry of shared/repositories/redis/timer.py: the sorted set
 * `game_timers` (element -> score) and the hash `game_timers:index`
 * ("<session_id>:<timer_name>" -> element). `Registry` is the pair as a value;
 * `TimerManager` holds the two structures and updates them in place.
 */
module TimerRegistry {
  import opened Wrappers
  import opened Strings
  import opened Schemas

  datatype Registry = Registry(zset: map<Member, int>, index: map<string, Member>)

  const Empty: Registry := Registry(map[], map[])

  /** `_make_timer_key`: "<session_id>:<timer_name>". */
  function MakeTimerKey(sessionId: string, timerName: string): (key: string)
    ensures |key| == |sessionId| + 1 + |timerName|
    ensures key[..|sessionId|] == sessionId && key[|sessionId|] == ':'
    ensures key[|sessionId| + 1..] == timerName
  {
    Join(sessionId, timerName)
  }

  /** The index key of a timer record. */
  function KeyOf(t: TimerRecord): string
  {
    MakeTimerKey(t.sessionId, t.timerName)
  }

  /** Two members that are timers for the same (session, name) pair. */
  predicate SameKey(x: Member, y: Member)
  {
    x.Json? && y.Json? && KeyOf(x.rec) == KeyOf(y.rec)
  }

  /** Every index entry is a timer stored under its own key. */
  ghost predicate IndexWellFormed(r: Registry)
  {
    forall k | k in r.index :: r.index[k].Json? && KeyOf(r.index[k].rec) == k
  }

  /** Every timer in the sorted set is scored by its own `next_tick`. */
  ghost predicate Scored(zset: map<Member, int>)
  {
    forall m | m in zset && m.Json? :: zset[m] == m.rec.nextTick
  }

  /** What every operation of the source keeps, the worker pass included. */
  ghost predicate Valid(r: Registry)
  {
    IndexWellFormed(r) && Scored(r.zset)
  }

  /** At most one timer per (session, name) pair in the sorted set. */
  ghost predicate UniqueKeys(zset: map<Member, int>)
  {
    forall x, y | x in zset && y in zset && SameKey(x, y) :: x == y
  }

  /** The index and the sorted set describe the same timers. */
  ghost predicate Synced(r: Registry)
  {
    && (forall k | k in r.index :: r.index[k] in r.zset)
    && (forall m | m in r.zset && m.Json? :: KeyOf(m.rec) in r.index && r.index[KeyOf(m.rec)] == m)
  }

  /** The record `schedule_timer` creates at time `now`. */
  function NewRecord(sessionId: string, timerName: string, frequency: int, timeout: int, now: int): TimerRecord
  {
    TimerRecord(sessionId, timerName, frequency, now + timeout, now + frequency)
  }

  /** `schedule_timer`: the new registry and the returned flag. */
  function Schedule(r: Registry, sessionId: string, timerName: string, frequency: int, timeout: int, now: int)
    : (res: (Registry, bool))
    ensures res.1 <==> MakeTimerKey(sessionId, timerName) !in r.index
    ensures !res.1 ==> res.0 == r
    ensures res.1 ==>
      var e := Json(NewRecord(sessionId, timerName, frequency, timeout, now));
      && e in res.0.zset && res.0.zset[e] == e.rec.nextTick
      && res.0.index.Keys == r.index.Keys + {MakeTimerKey(sessionId, timerName)}
      && res.0.index[MakeTimerKey(sessionId, timerName)] == e
      && (forall m | m in r.zset :: m in res.0.zset)
      && (forall k | k in r.index :: res.0.index[k] == r.index[k])
      && (forall m | m in r.zset && m != e :: res.0.zset[m] == r.zset[m])
  {
    var key := MakeTimerKey(sessionId, timerName);
    if key in r.index then (r, false)
    else
      var e := Json(NewRecord(sessionId, timerName, frequency, timeout, now));
      (Registry(r.zset[e := now + frequency], r.index[key := e]), true)
  }

  /** `get_timer` on the record level: the decoded index entry, or None. */
  function Lookup(r: Registry, sessionId: string, timerName: string): (t: Option<TimerRecord>)
    requires IndexWellFormed(r)
    ensures t.None? <==> MakeTimerKey(sessionId, timerName) !in r.index
    ensures t.Some? ==> Json(t.value) == r.index[MakeTimerKey(sessionId, timerName)]
    ensures t.Some? ==> KeyOf(t.value) == MakeTimerKey(sessionId, timerName)
  {
    var key := MakeTimerKey(sessionId, timerName);
    if key in r.index then Decode(r.index[key]) else None
  }

  /** `delete_timer`: drop the index entry and the sorted-set element it names. */
  function Delete(r: Registry, sessionId: string, timerName: string): (r': Registry)
    ensures var key := MakeTimerKey(sessionId, timerName);
      && key !in r'.index
      && (key in r.index ==> r.index[key] !in r'.zset)
      && (forall k | k in r.index && k != key :: k in r'.index && r'.index[k] == r.index[k])
      && (forall m | m in r.zset && (key !in r.index || m != r.index[key]) :: m in r'.zset && r'.zset[m] == r.zset[m])
      && r'.zset.Keys <= r.zset.Keys && r'.index.Keys <= r.index.Keys
  {
    var key := MakeTimerKey(sessionId, timerName);
    Registry(if key in r.index then r.zset - {r.index[key]} else r.zset, r.index - {key})
  }

  // ---------------------------------------------------------------------------
  // Properties of the registry operations

  /** With timer names free of ':', distinct (session, name) pairs get distinct index keys. */
  lemma TimerKeyInjective(s1: string, n1: string, s2: string, n2: string)
    requires ':' !in n1 && ':' !in n2
    requires MakeTimerKey(s1, n1) == MakeTimerKey(s2, n2)
    ensures s1 == s2 && n1 == n2
  {
    JoinInjective(s1, n1, s2, n2);
  }

  lemma SchedulePreservesValid(r: Registry, sessionId: string, timerName: string, frequency: int, timeout: int, now: int)
    requires Valid(r)
    ensures Valid(Schedule(r, sessionId, timerName, frequency, timeout, now).0)
  {
  }

  /** A successful schedule keeps the index and the sorted set in step. */
  lemma SchedulePreservesSynced(r: Registry, sessionId: string, timerName: string, frequency: int, timeout: int, now: int)
    requires Valid(r) && Synced(r)
    ensures Synced(Schedule(r, sessionId, timerName, frequency, timeout, now).0)
  {
    var key := MakeTimerKey(sessionId, timerName);
    if key !in r.index {
      var e := Json(NewRecord(sessionId, timerName, frequency, timeout, now));
      var r' := Schedule(r, sessionId, timerName, frequency, timeout, now).0;
      forall m | m in r'.zset && m.Json?
        ensures KeyOf(m.rec) in r'.index && r'.index[KeyOf(m.rec)] == m
      {
        if m != e {
          assert m in r.zset;
          assert KeyOf(m.rec) != key;
        }
      }
    }
  }

  /** Two schedules of one pair: the first succeeds, the second is refused and changes nothing. */
  lemma ScheduleTwice(r: Registry, sessionId: string, timerName: string, frequency: int, timeout: int, now1: int, now2: int)
    requires Valid(r) && Synced(r)
    requires MakeTimerKey(sessionId, timerName) !in r.index
    ensures var (r1, ok1) := Schedule(r, sessionId, timerName, frequency, timeout, now1);
      var (r2, ok2) := Schedule(r1, sessionId, timerName, frequency, timeout, now2);
      && ok1 && !ok2 && r2 == r1
      && Lookup(r2, sessionId, timerName) == Some(NewRecord(sessionId, timerName, frequency, timeout, now1))
      && (forall m | m in r2.zset && m.Json? && KeyOf(m.rec) == MakeTimerKey(sessionId, timerName)
            :: m == Json(NewRecord(sessionId, timerName, frequency, timeout, now1)))
  {
    SchedulePreservesValid(r, sessionId, timerName, frequency, timeout, now1);
    SchedulePreservesSynced(r, sessionId, timerName, frequency, timeout, now1);
  }

  lemma DeletePreservesValid(r: Registry, sessionId: string, timerName: string)
    requires Valid(r)
    ensures Valid(Delete(r, sessionId, timerName))
  {
  }

  /** Deleting through the index keeps the two structures in step. */
  lemma DeletePreservesSynced(r: Registry, sessionId: string, timerName: string)
    requires Valid(r) && Synced(r)
    ensures Synced(Delete(r, sessionId, timerName))
  {
    var key := MakeTimerKey(sessionId, timerName);
    var r' := Delete(r, sessionId, timerName);
    forall k | k in r'.index
      ensures r'.index[k] in r'.zset
    {
      assert KeyOf(r.index[k].rec) == k;
      if key in r.index {
        assert KeyOf(r.index[key].rec) == key;
      }
    }
  }

  /** Deleting a pair that has no index entry changes nothing. */
  lemma DeleteAbsentIsNoOp(r: Registry, sessionId: string, timerName: string)
    requires MakeTimerKey(sessionId, timerName) !in r.index
    ensures Delete(r, sessionId, timerName) == r
  {
  }

  /** After a delete, the pair can be scheduled again, and the new timer is what lookup returns. */
  lemma DeleteThenSchedule(r: Registry, sessionId: string, timerName: string, frequency: int, timeout: int, now: int)
    requires Valid(r)
    ensures var (r', ok) := Schedule(Delete(r, sessionId, timerName), sessionId, timerName, frequency, timeout, now);
      ok && Lookup(r', sessionId, timerName) == Some(NewRecord(sessionId, timerName, frequency, timeout, now))
  {
    DeletePreservesValid(r, sessionId, timerName);
    SchedulePreservesValid(Delete(r, sessionId, timerName), sessionId, timerName, frequency, timeout, now);
  }

  // ---------------------------------------------------------------------------
  // The Redis-backed manager

  class TimerManager {
    /** `game_timers`: element -> score. */
    var zset: map<Member, int>
    /** `game_timers:index`: "<session_id>:<timer_name>" -> element. */
    var index: map<string, Member>

    function Model(): Registry
      reads this
    {
      Registry(zset, index)
    }

    constructor ()
      ensures Model() == Empty
    {
      zset := map[];
      index := map[];
    }

    /**
     * `schedule_timer` at time `now`: refused when the index has the pair;
     * otherwise the new timer goes into the sorted set, scored by its
     * `next_tick`, and into the index.
     */
    method ScheduleTimer(sessionId: string, timerName: string, frequency: int, timeout: int, now: int)
      returns (ok: bool)
      requires Valid(Model())
      modifies this
      ensures Valid(Model())
      ensures (Model(), ok) == Schedule(old(Model()), sessionId, timerName, frequency, timeout, now)
    {
      SchedulePreservesValid(Model(), sessionId, timerName, frequency, timeout, now);
      var key := MakeTimerKey(sessionId, timerName);
      if key in index {
        return false;
      }
      var timer := new GameTimer(sessionId, timerName, Some(frequency), Some(timeout), None, None, now);
      // Post-initialisation always sets next_tick, so the source's ValueError branch cannot be taken.
      var element := timer.ModelDumpJson();
      zset := zset[element := timer.nextTick.value];
      index := index[key := element];
      ok := true;
    }

    /**
     * `get_timer`: the timer rebuilt from the index entry, or None. The rebuilt
     * timer has the stored timestamps and, since the dump omits `timeout`, the
     * default timeout.
     */
    method GetTimer(sessionId: string, timerName: string, now: int) returns (timer: Option<GameTimer>)
      requires Valid(Model())
      ensures timer.None? <==> Lookup(Model(), sessionId, timerName).None?
      ensures timer.Some? ==>
        && fresh(timer.value) && timer.value.Valid()
        && timer.value.ModelDump() == Lookup(Model(), sessionId, timerName).value
        && timer.value.timeout == DEFAULT_TIMEOUT
    {
      var key := MakeTimerKey(sessionId, timerName);
      if key in index {
        var t := index[key].rec;
        var g := new GameTimer(t.sessionId, t.timerName, Some(t.frequency), None, Some(t.expireAt), Some(t.nextTick), now);
        return Some(g);
      }
      return None;
    }

    /** `delete_timer`: removes the index entry and the element it names; absent pairs are a no-op. */
    method DeleteTimer(sessionId: string, timerName: string)
      requires Valid(Model())
      modifies this
      ensures Valid(Model())
      ensures Model() == Delete(old(Model()), sessionId, timerName)
    {
      DeletePreservesValid(Model(), sessionId, timerName);
      var key := MakeTimerKey(sessionId, timerName);
      if key in index {
        zset := zset - {index[key]};
      }
      index := index - {key};
    }
  }
}
