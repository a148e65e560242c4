/**
 * One pass of the worker's polling loop (`global_tick` in worker/main.py) over
 * the timer registry, at time `now`. The pass takes the members whose score is
 * at most `now` (in ascending score order) and treats each in turn:
 * an element that does not decode is removed; an expired timer goes to the
 * timeout handler and is removed only if the handler reports done; any other
 * timer goes to the tick handler and is replaced by a copy whose `next_tick`
 * is `now + frequency`, scored by that value.
 *
 * As written, the pass never touches the index `game_timers:index`. `Pass`
 * models that; `PassSynced` is the corrected pass, which updates the index in
 * the same pipeline.
 */
module Worker {
  import opened Wrappers
  import opened Schemas
  import opened TimerRegistry
  import opened Dispatch

  /** A handler call made by the pass, with the arguments it was given. */
  datatype Call =
    | TickCall(sessionId: string, timerName: string, timeLeft: int)
    | TimeoutCall(sessionId: string, timerName: string, timeLeft: int, done: bool)

  ghost predicate Distinct(s: seq<Member>)
  {
    forall i, j | 0 <= i < j < |s| :: s[i] != s[j]
  }

  /**
   * `due` is what `zrangebyscore(key, 0, now)` returns: every due member once,
   * by ascending score. Scores are timestamps, hence non-negative, so the lower
   * bound 0 excludes nothing.
   */
  ghost predicate IsDueList(zset: map<Member, int>, now: int, due: seq<Member>)
  {
    && Distinct(due)
    && (forall m :: m in due <==> m in zset && zset[m] <= now)
    && (forall i, j | 0 <= i < j < |due| :: zset[due[i]] <= zset[due[j]])
  }

  /** The timer a tick writes back: the same record with `next_tick = now + frequency`. */
  function Rescheduled(t: TimerRecord, now: int): (t': TimerRecord)
    ensures KeyOf(t') == KeyOf(t)
    ensures t'.nextTick == now + t.frequency
    ensures t' == t <==> t.nextTick == now + t.frequency
  {
    t.(nextTick := now + t.frequency)
  }

  /** The handler calls made for one member. */
  function StepCalls(e: Member, now: int, result: TimeoutResult): (calls: seq<Call>)
    ensures e.Text? ==> calls == []
    ensures e.Json? && now >= e.rec.expireAt ==>
      calls == [TimeoutCall(e.rec.sessionId, e.rec.timerName, e.rec.expireAt - now,
                            HandleTimeout(e.rec.sessionId, e.rec.timerName, e.rec.expireAt - now, result))]
    ensures e.Json? && now < e.rec.expireAt ==>
      calls == [TickCall(e.rec.sessionId, e.rec.timerName, e.rec.expireAt - now)] && calls[0].timeLeft > 0
  {
    match e
    case Text(_) => []
    case Json(t) =>
      if now >= t.expireAt then
        [TimeoutCall(t.sessionId, t.timerName, t.expireAt - now,
                     HandleTimeout(t.sessionId, t.timerName, t.expireAt - now, result))]
      else
        [TickCall(t.sessionId, t.timerName, t.expireAt - now)]
  }

  /** The registry after the pass has treated member `e` (as written: the index is untouched). */
  function Step(r: Registry, e: Member, now: int, result: TimeoutResult): (r': Registry)
    ensures r'.index == r.index
    ensures e.Text? ==> e !in r'.zset
    ensures e.Json? && now < e.rec.expireAt ==>
      Json(Rescheduled(e.rec, now)) in r'.zset && r'.zset[Json(Rescheduled(e.rec, now))] == now + e.rec.frequency
    ensures e.Json? && now >= e.rec.expireAt ==>
      (e in r'.zset <==> e in r.zset && !HandleTimeout(e.rec.sessionId, e.rec.timerName, e.rec.expireAt - now, result))
  {
    match e
    case Text(_) => r.(zset := r.zset - {e})
    case Json(t) =>
      if now >= t.expireAt then
        if HandleTimeout(t.sessionId, t.timerName, t.expireAt - now, result) then r.(zset := r.zset - {e}) else r
      else
        r.(zset := (r.zset - {e})[Json(Rescheduled(t, now)) := now + t.frequency])
  }

  /** The registry after the pass has treated the members of `due` in order. */
  function Pass(r: Registry, due: seq<Member>, now: int, result: TimeoutResult): (r': Registry)
    ensures r'.index == r.index
    decreases |due|
  {
    if due == [] then r
    else Step(Pass(r, due[..|due| - 1], now, result), due[|due| - 1], now, result)
  }

  /** The handler calls of a pass, in order. */
  function PassCalls(due: seq<Member>, now: int, result: TimeoutResult): seq<Call>
    decreases |due|
  {
    if due == [] then []
    else PassCalls(due[..|due| - 1], now, result) + StepCalls(due[|due| - 1], now, result)
  }

  // ---------------------------------------------------------------------------
  // Reading the due members and running the pass

  lemma LowestScoreExists(s: set<Member>, zset: map<Member, int>)
    requires s != {} && s <= zset.Keys
    ensures exists m :: m in s && forall x | x in s :: zset[m] <= zset[x]
  {
    var y :| y in s;
    if s != {y} {
      LowestScoreExists(s - {y}, zset);
      var m :| m in s - {y} && forall x | x in s - {y} :: zset[m] <= zset[x];
      if zset[y] < zset[m] {
        assert forall x | x in s :: zset[y] <= zset[x];
      } else {
        assert forall x | x in s :: zset[m] <= zset[x];
      }
    } else {
      assert forall x | x in s :: x == y;
    }
  }

  /** `zrangebyscore(game_timers, 0, now)`: the due members, lowest score first. */
  method RangeByScore(reg: TimerManager, now: int) returns (due: seq<Member>)
    ensures IsDueList(reg.zset, now, due)
  {
    var pending := set m | m in reg.zset && reg.zset[m] <= now;
    due := [];
    while pending != {}
      invariant pending <= reg.zset.Keys
      invariant forall m :: m in due || m in pending <==> m in reg.zset && reg.zset[m] <= now
      invariant forall m | m in pending :: m !in due
      invariant Distinct(due)
      invariant forall i, j | 0 <= i < j < |due| :: reg.zset[due[i]] <= reg.zset[due[j]]
      invariant forall i, m | 0 <= i < |due| && m in pending :: reg.zset[due[i]] <= reg.zset[m]
      decreases pending
    {
      LowestScoreExists(pending, reg.zset);
      var m :| m in pending && forall x | x in pending :: reg.zset[m] <= reg.zset[x];
      due := due + [m];
      pending := pending - {m};
    }
  }

  /**
   * `global_tick` at time `now`, as written: the registry ends as `Pass`
   * describes and the handler calls are those of `PassCalls`.
   */
  method GlobalTick(reg: TimerManager, now: int, result: TimeoutResult) returns (due: seq<Member>, calls: seq<Call>)
    modifies reg
    ensures IsDueList(old(reg.zset), now, due)
    ensures reg.Model() == Pass(old(reg.Model()), due, now, result)
    ensures calls == PassCalls(due, now, result)
  {
    due := RangeByScore(reg, now);
    calls := [];
    ghost var start := reg.Model();
    var i := 0;
    while i < |due|
      invariant 0 <= i <= |due|
      invariant reg.Model() == Pass(start, due[..i], now, result)
      invariant calls == PassCalls(due[..i], now, result)
    {
      var element := due[i];
      var decoded := Decode(element);
      if decoded.None? {
        reg.zset := reg.zset - {element};
      } else {
        var t := decoded.value;
        if now >= t.expireAt {
          var done := HandleTimeout(t.sessionId, t.timerName, t.expireAt - now, result);
          calls := calls + [TimeoutCall(t.sessionId, t.timerName, t.expireAt - now, done)];
          if done {
            reg.zset := reg.zset - {element};
          }
        } else {
          calls := calls + [TickCall(t.sessionId, t.timerName, t.expireAt - now)];
          var updated := t.(nextTick := now + t.frequency);
          // zrem and zadd in one pipeline
          reg.zset := (reg.zset - {element})[Json(updated) := updated.nextTick];
        }
      }
      assert due[..i + 1][..i] == due[..i];
      i := i + 1;
    }
    assert due[..i] == due;
  }

  // ---------------------------------------------------------------------------
  // What a pass does to each member

  lemma {:induction false} PassPreservesValid(r: Registry, due: seq<Member>, now: int, result: TimeoutResult)
    requires Valid(r)
    ensures Pass(r, due, now, result).index == r.index
    ensures Valid(Pass(r, due, now, result))
    decreases |due|
  {
    if due != [] {
      PassPreservesValid(r, due[..|due| - 1], now, result);
    }
  }

  /**
   * A member the pass does not examine stays, with its score. (A rescheduled
   * copy may coincide with it, but then carries the same score.)
   */
  lemma {:induction false} PassKeepsOthers(r: Registry, due: seq<Member>, now: int, result: TimeoutResult, m: Member)
    requires Valid(r)
    requires m in r.zset && m !in due
    ensures m in Pass(r, due, now, result).zset
    ensures Pass(r, due, now, result).zset[m] == r.zset[m]
    decreases |due|
  {
    if due != [] {
      var pre := due[..|due| - 1];
      assert m !in pre by { assert forall x | x in pre :: x in due; }
      PassKeepsOthers(r, pre, now, result, m);
      PassPreservesValid(r, pre, now, result);
    }
  }

  /** An element that does not decode is gone after the pass. */
  lemma {:induction false} PassDropsUndecodable(r: Registry, due: seq<Member>, now: int, result: TimeoutResult, e: Member)
    requires e in due && e.Text?
    ensures e !in Pass(r, due, now, result).zset
    decreases |due|
  {
    var pre := due[..|due| - 1];
    if due[|due| - 1] != e {
      assert e in pre by { var i :| 0 <= i < |due| && due[i] == e; assert pre[i] == e; }
      PassDropsUndecodable(r, pre, now, result, e);
    }
  }

  lemma {:induction false} PassAppend(r: Registry, a: seq<Member>, b: seq<Member>, now: int, result: TimeoutResult)
    ensures Pass(r, a + b, now, result) == Pass(Pass(r, a, now, result), b, now, result)
    decreases |b|
  {
    if b == [] {
      assert a + b == a;
    } else {
      assert (a + b)[..|a + b| - 1] == a + b[..|b| - 1];
      PassAppend(r, a, b[..|b| - 1], now, result);
    }
  }

  /** Members that share neither identity nor (session, name) with the processed ones are untouched. */
  lemma {:induction false} PassFrame(r: Registry, s: seq<Member>, now: int, result: TimeoutResult, m: Member)
    requires forall x | x in s :: x != m && !SameKey(x, m)
    ensures m in Pass(r, s, now, result).zset <==> m in r.zset
    ensures m in r.zset ==> Pass(r, s, now, result).zset[m] == r.zset[m]
    decreases |s|
  {
    if s != [] {
      var pre := s[..|s| - 1];
      var last := s[|s| - 1];
      assert forall x | x in pre :: x in s;
      PassFrame(r, pre, now, result, m);
      assert last in s;
      if last.Json? {
        assert KeyOf(Rescheduled(last.rec, now)) == KeyOf(last.rec);
        assert Json(Rescheduled(last.rec, now)) != m;
      }
    }
  }

  /** Splits a pass at the position of one of its members. */
  lemma PassAround(r: Registry, due: seq<Member>, now: int, result: TimeoutResult, p: nat)
    requires p < |due|
    ensures Pass(r, due, now, result)
         == Pass(Step(Pass(r, due[..p], now, result), due[p], now, result), due[p + 1..], now, result)
  {
    assert due == due[..p + 1] + due[p + 1..];
    PassAppend(r, due[..p + 1], due[p + 1..], now, result);
    assert due[..p + 1][..p] == due[..p];
  }

  /** Under unique keys, no other processed member is the same timer as `due[p]`. */
  lemma OthersUnrelated(zset: map<Member, int>, due: seq<Member>, p: nat, m: Member)
    requires UniqueKeys(zset) && Distinct(due) && (forall x | x in due :: x in zset)
    requires p < |due|
    requires m == due[p] || (m.Json? && due[p].Json? && KeyOf(m.rec) == KeyOf(due[p].rec) && m !in zset)
    ensures forall x | x in due[..p] :: x != m && !SameKey(x, m)
    ensures forall x | x in due[p + 1..] :: x != m && !SameKey(x, m)
  {
    forall x | x in due[..p]
      ensures x != m && !SameKey(x, m)
    {
      var i :| 0 <= i < p && due[..p][i] == x;
      assert due[i] != due[p];
      assert !SameKey(x, due[p]);
    }
    forall x | x in due[p + 1..]
      ensures x != m && !SameKey(x, m)
    {
      var i :| 0 <= i < |due| - p - 1 && due[p + 1..][i] == x;
      assert due[p + 1 + i] != due[p];
      assert !SameKey(x, due[p]);
    }
  }

  /**
   * An expired timer goes to the timeout handler; it is removed exactly when
   * the handler reports done, and otherwise stays with its score.
   */
  lemma PassTimeoutOutcome(r: Registry, due: seq<Member>, now: int, result: TimeoutResult, p: nat)
    requires Valid(r) && UniqueKeys(r.zset)
    requires Distinct(due) && (forall x | x in due :: x in r.zset)
    requires p < |due| && due[p].Json? && now >= due[p].rec.expireAt
    ensures var t := due[p].rec;
      var done := HandleTimeout(t.sessionId, t.timerName, t.expireAt - now, result);
      var r' := Pass(r, due, now, result);
      && (due[p] in r'.zset <==> !done)
      && (!done ==> r'.zset[due[p]] == r.zset[due[p]])
  {
    var e := due[p];
    PassAround(r, due, now, result, p);
    OthersUnrelated(r.zset, due, p, e);
    PassFrame(r, due[..p], now, result, e);
    var mid := Step(Pass(r, due[..p], now, result), e, now, result);
    PassFrame(mid, due[p + 1..], now, result, e);
  }

  /**
   * A timer that has not expired goes to the tick handler and is replaced by
   * its rescheduled copy, scored `now + frequency`; the old element is gone
   * unless it already was that copy.
   */
  lemma PassTickOutcome(r: Registry, due: seq<Member>, now: int, result: TimeoutResult, p: nat)
    requires Valid(r) && UniqueKeys(r.zset)
    requires Distinct(due) && (forall x | x in due :: x in r.zset)
    requires p < |due| && due[p].Json? && now < due[p].rec.expireAt
    ensures var t := due[p].rec;
      var e' := Json(Rescheduled(t, now));
      var r' := Pass(r, due, now, result);
      && e' in r'.zset && r'.zset[e'] == now + t.frequency
      && (e' != due[p] ==> due[p] !in r'.zset)
  {
    var e := due[p];
    var e' := Json(Rescheduled(e.rec, now));
    PassAround(r, due, now, result, p);
    OthersUnrelated(r.zset, due, p, e);
    var mid := Step(Pass(r, due[..p], now, result), e, now, result);
    PassFrame(mid, due[p + 1..], now, result, e);
    if e' != e {
      if e' in r.zset {
        assert SameKey(e', e);
        assert false;
      }
      OthersUnrelated(r.zset, due, p, e');
    }
    PassFrame(mid, due[p + 1..], now, result, e');
  }

  /** With a positive frequency, the rescheduled copy is not due again at the same `now`. */
  lemma RescheduledNotDue(r: Registry, due: seq<Member>, now: int, result: TimeoutResult, p: nat)
    requires Valid(r) && UniqueKeys(r.zset)
    requires Distinct(due) && (forall x | x in due :: x in r.zset)
    requires p < |due| && due[p].Json? && now < due[p].rec.expireAt && due[p].rec.frequency > 0
    ensures var e' := Json(Rescheduled(due[p].rec, now));
      e' in Pass(r, due, now, result).zset && Pass(r, due, now, result).zset[e'] > now
  {
    PassTickOutcome(r, due, now, result, p);
  }

  lemma StepNeverGrows(r: Registry, e: Member, now: int, result: TimeoutResult)
    requires e in r.zset
    ensures |Step(r, e, now, result).zset| <= |r.zset|
  {
    var without := r.zset - {e};
    assert without.Keys == r.zset.Keys - {e};
    assert |without.Keys| == |r.zset.Keys| - 1;
    if e.Json? && now < e.rec.expireAt {
      var e' := Json(Rescheduled(e.rec, now));
      var after := without[e' := now + e.rec.frequency];
      assert after.Keys == without.Keys + {e'};
      assert |after.Keys| <= |without.Keys| + 1;
    }
  }

  /** A pass removes, keeps or replaces each due member one for one: the set never grows. */
  lemma {:induction false} PassNeverGrows(r: Registry, due: seq<Member>, now: int, result: TimeoutResult)
    requires Valid(r)
    requires Distinct(due) && (forall x | x in due :: x in r.zset)
    ensures |Pass(r, due, now, result).zset| <= |r.zset|
    decreases |due|
  {
    if due != [] {
      var pre := due[..|due| - 1];
      var last := due[|due| - 1];
      assert forall x | x in pre :: x in due;
      assert last !in pre by {
        forall i | 0 <= i < |pre| ensures pre[i] != last { assert due[i] != due[|due| - 1]; }
      }
      PassNeverGrows(r, pre, now, result);
      PassKeepsOthers(r, pre, now, result, last);
      StepNeverGrows(Pass(r, pre, now, result), last, now, result);
    }
  }

  /** The index and the sorted set in step imply one timer per (session, name) pair. */
  lemma SyncedUniqueKeys(r: Registry)
    requires Synced(r)
    ensures UniqueKeys(r.zset)
  {
  }

  // ---------------------------------------------------------------------------
  // A timer with frequency 2 s and timeout 10 s, scheduled at t0

  /** The element after k ticks: next_tick t0 + 2 s * (k + 1). */
  function Entry(sessionId: string, timerName: string, t0: int, k: nat): Member
  {
    Json(TimerRecord(sessionId, timerName, 2000, t0 + 10000, t0 + 2000 * (k + 1)))
  }

  /** Scheduling at t0 puts in the element due at t0 + 2 s. */
  lemma TimelineStart(sessionId: string, timerName: string, t0: int)
    ensures var (r, ok) := Schedule(Empty, sessionId, timerName, 2000, 10000, t0);
      ok && r.zset == map[Entry(sessionId, timerName, t0, 0) := t0 + 2000]
  {
  }

  /** The evaluations at t0 + 2, 4, 6 and 8 s are ticks that move the element 2 s on. */
  lemma TimelineTick(r: Registry, sessionId: string, timerName: string, t0: int, k: nat, result: TimeoutResult)
    requires 1 <= k <= 4
    requires r.zset == map[Entry(sessionId, timerName, t0, k - 1) := t0 + 2000 * k]
    ensures var now := t0 + 2000 * k;
      var due := [Entry(sessionId, timerName, t0, k - 1)];
      && IsDueList(r.zset, now, due)
      && Pass(r, due, now, result).zset == map[Entry(sessionId, timerName, t0, k) := t0 + 2000 * (k + 1)]
      && PassCalls(due, now, result) == [TickCall(sessionId, timerName, 10000 - 2000 * k)]
  {
    var now := t0 + 2000 * k;
    var e := Entry(sessionId, timerName, t0, k - 1);
    assert Rescheduled(e.rec, now) == Entry(sessionId, timerName, t0, k).rec;
    assert (r.zset - {e}) == map[];
  }

  /** The evaluation at t0 + 10 s is the timeout: removed iff the handler reports done. */
  lemma TimelineTimeout(r: Registry, sessionId: string, timerName: string, t0: int, result: TimeoutResult)
    requires r.zset == map[Entry(sessionId, timerName, t0, 4) := t0 + 10000]
    ensures var now := t0 + 10000;
      var due := [Entry(sessionId, timerName, t0, 4)];
      var done := HandleTimeout(sessionId, timerName, 0, result);
      && IsDueList(r.zset, now, due)
      && PassCalls(due, now, result) == [TimeoutCall(sessionId, timerName, 0, done)]
      && Pass(r, due, now, result).zset == if done then map[] else r.zset
  {
    var e := Entry(sessionId, timerName, t0, 4);
    assert (r.zset - {e}) == map[];
  }

  // ---------------------------------------------------------------------------
  // As written, the pass leaves the index stale

  /**
   * After a tick, the index still names the old element, which is gone; a
   * following `delete_timer` leaves the live copy in the sorted set.
   */
  lemma TickLeavesIndexStale(r: Registry, due: seq<Member>, now: int, result: TimeoutResult, p: nat)
    requires Valid(r) && Synced(r) && IsDueList(r.zset, now, due)
    requires p < |due| && due[p].Json? && now < due[p].rec.expireAt && due[p].rec.frequency > 0
    ensures var t := due[p].rec;
      var r' := Pass(r, due, now, result);
      && KeyOf(t) in r'.index && r'.index[KeyOf(t)] == due[p] && due[p] !in r'.zset
      && Json(Rescheduled(t, now)) in Delete(r', t.sessionId, t.timerName).zset
  {
    var e := due[p];
    SyncedUniqueKeys(r);
    assert e in r.zset && r.zset[e] <= now;
    PassPreservesValid(r, due, now, result);
    PassTickOutcome(r, due, now, result, p);
  }

  /**
   * After a timeout the handler reports done for, the element is gone but the
   * index entry stays, so `schedule_timer` for the pair is refused.
   */
  lemma TimeoutBlocksReschedule(r: Registry, due: seq<Member>, now: int, result: TimeoutResult, p: nat,
                                frequency: int, timeout: int, later: int)
    requires Valid(r) && Synced(r) && IsDueList(r.zset, now, due)
    requires p < |due| && due[p].Json? && now >= due[p].rec.expireAt
    requires HandleTimeout(due[p].rec.sessionId, due[p].rec.timerName, due[p].rec.expireAt - now, result)
    ensures var t := due[p].rec;
      var r' := Pass(r, due, now, result);
      && due[p] !in r'.zset
      && KeyOf(t) in r'.index && r'.index[KeyOf(t)] == due[p]
      && Schedule(r', t.sessionId, t.timerName, frequency, timeout, later) == (r', false)
  {
    SyncedUniqueKeys(r);
    PassPreservesValid(r, due, now, result);
    PassTimeoutOutcome(r, due, now, result, p);
  }

  // ---------------------------------------------------------------------------
  // The corrected pass: the index follows every replacement and removal

  function StepSynced(r: Registry, e: Member, now: int, result: TimeoutResult): (r': Registry)
    ensures r'.zset == Step(r, e, now, result).zset
    ensures e.Json? && now < e.rec.expireAt ==>
      KeyOf(e.rec) in r'.index && r'.index[KeyOf(e.rec)] == Json(Rescheduled(e.rec, now))
    ensures e.Json? && now >= e.rec.expireAt ==>
      (KeyOf(e.rec) in r'.index <==> KeyOf(e.rec) in r.index && !HandleTimeout(e.rec.sessionId, e.rec.timerName, e.rec.expireAt - now, result))
  {
    match e
    case Text(_) => r.(zset := r.zset - {e})
    case Json(t) =>
      if now >= t.expireAt then
        if HandleTimeout(t.sessionId, t.timerName, t.expireAt - now, result)
        then Registry(r.zset - {e}, r.index - {KeyOf(t)})
        else r
      else
        var e' := Json(Rescheduled(t, now));
        Registry((r.zset - {e})[e' := now + t.frequency], r.index[KeyOf(t) := e'])
  }

  function PassSynced(r: Registry, due: seq<Member>, now: int, result: TimeoutResult): (r': Registry)
    ensures r'.zset == Pass(r, due, now, result).zset
    decreases |due|
  {
    if due == [] then r
    else StepSynced(PassSynced(r, due[..|due| - 1], now, result), due[|due| - 1], now, result)
  }

  lemma StepSyncedPreservesSynced(r: Registry, e: Member, now: int, result: TimeoutResult)
    requires Valid(r) && Synced(r) && e in r.zset
    ensures Valid(StepSynced(r, e, now, result)) && Synced(StepSynced(r, e, now, result))
  {
    var r' := StepSynced(r, e, now, result);
    if e.Json? {
      var k := KeyOf(e.rec);
      assert r.index[k] == e;
      forall k2 | k2 in r'.index
        ensures r'.index[k2] in r'.zset
      {
        if k2 != k {
          assert KeyOf(r.index[k2].rec) == k2;
        }
      }
      if now < e.rec.expireAt {
        var e' := Json(Rescheduled(e.rec, now));
        forall m | m in r'.zset && m.Json?
          ensures KeyOf(m.rec) in r'.index && r'.index[KeyOf(m.rec)] == m
        {
          if m != e' {
            assert m in r.zset && m != e;
          }
        }
      }
    } else {
      forall k | k in r.index ensures r.index[k] != e { }
    }
  }

  /** The corrected pass keeps the index and the sorted set in step. */
  lemma {:induction false} PassSyncedPreservesSynced(r: Registry, due: seq<Member>, now: int, result: TimeoutResult)
    requires Valid(r) && Synced(r)
    requires Distinct(due) && (forall x | x in due :: x in r.zset)
    ensures Valid(PassSynced(r, due, now, result)) && Synced(PassSynced(r, due, now, result))
    decreases |due|
  {
    if due != [] {
      var pre := due[..|due| - 1];
      var last := due[|due| - 1];
      assert forall x | x in pre :: x in due;
      assert last !in pre by {
        forall i | 0 <= i < |pre| ensures pre[i] != last { assert due[i] != due[|due| - 1]; }
      }
      PassSyncedPreservesSynced(r, pre, now, result);
      PassKeepsOthers(r, pre, now, result, last);
      StepSyncedPreservesSynced(PassSynced(r, pre, now, result), last, now, result);
    }
  }

  /** With the corrected pass, a pair that timed out can be scheduled again. */
  lemma SyncedTimeoutAllowsReschedule(r: Registry, due: seq<Member>, now: int, result: TimeoutResult, p: nat,
                                      frequency: int, timeout: int, later: int)
    requires Valid(r) && Synced(r) && IsDueList(r.zset, now, due)
    requires p < |due| && due[p].Json? && now >= due[p].rec.expireAt
    requires HandleTimeout(due[p].rec.sessionId, due[p].rec.timerName, due[p].rec.expireAt - now, result)
    ensures var t := due[p].rec;
      Schedule(PassSynced(r, due, now, result), t.sessionId, t.timerName, frequency, timeout, later).1
  {
    var e := due[p];
    SyncedUniqueKeys(r);
    assert due == due[..p + 1] + due[p + 1..];
    PassSyncedAppend(r, due[..p + 1], due[p + 1..], now, result);
    assert due[..p + 1][..p] == due[..p];
    OthersUnrelated(r.zset, due, p, e);
    var mid := StepSynced(PassSynced(r, due[..p], now, result), e, now, result);
    assert KeyOf(e.rec) !in mid.index;
    PassSyncedIndexFrame(mid, due[p + 1..], now, result, KeyOf(e.rec));
  }

  lemma {:induction false} PassSyncedAppend(r: Registry, a: seq<Member>, b: seq<Member>, now: int, result: TimeoutResult)
    ensures PassSynced(r, a + b, now, result) == PassSynced(PassSynced(r, a, now, result), b, now, result)
    decreases |b|
  {
    if b == [] {
      assert a + b == a;
    } else {
      assert (a + b)[..|a + b| - 1] == a + b[..|b| - 1];
      PassSyncedAppend(r, a, b[..|b| - 1], now, result);
    }
  }

  /** The corrected pass changes the index entry of a pair only when it treats a timer of that pair. */
  lemma {:induction false} PassSyncedIndexFrame(r: Registry, s: seq<Member>, now: int, result: TimeoutResult, k: string)
    requires forall x | x in s :: !(x.Json? && KeyOf(x.rec) == k)
    ensures k in PassSynced(r, s, now, result).index <==> k in r.index
    decreases |s|
  {
    if s != [] {
      var pre := s[..|s| - 1];
      assert forall x | x in pre :: x in s;
      assert s[|s| - 1] in s;
      PassSyncedIndexFrame(r, pre, now, result, k);
    }
  }

  /** With the corrected pass, a ticked timer can still be deleted: no element for the pair remains. */
  lemma SyncedTickThenDelete(r: Registry, due: seq<Member>, now: int, result: TimeoutResult, p: nat)
    requires Valid(r) && Synced(r) && IsDueList(r.zset, now, due)
    requires p < |due| && due[p].Json? && now < due[p].rec.expireAt
    ensures var t := due[p].rec;
      var r' := Delete(PassSynced(r, due, now, result), t.sessionId, t.timerName);
      forall m | m in r'.zset && m.Json? :: KeyOf(m.rec) != KeyOf(t)
  {
    PassSyncedPreservesSynced(r, due, now, result);
    var t := due[p].rec;
    var rs := PassSynced(r, due, now, result);
    DeletePreservesSynced(rs, t.sessionId, t.timerName);
  }

  /** One member of the corrected `global_tick` loop: zset and index change in one pipeline. */
  method TickSynced(reg: TimerManager, element: Member, now: int, result: TimeoutResult) returns (stepCalls: seq<Call>)
    modifies reg
    ensures reg.Model() == StepSynced(old(reg.Model()), element, now, result)
    ensures stepCalls == StepCalls(element, now, result)
  {
    stepCalls := [];
    var decoded := Decode(element);
    if decoded.None? {
      reg.zset := reg.zset - {element};
    } else {
      var t := decoded.value;
      var key := MakeTimerKey(t.sessionId, t.timerName);
      if now >= t.expireAt {
        var done := HandleTimeout(t.sessionId, t.timerName, t.expireAt - now, result);
        stepCalls := [TimeoutCall(t.sessionId, t.timerName, t.expireAt - now, done)];
        if done {
          reg.zset := reg.zset - {element};
          reg.index := reg.index - {key};
        }
      } else {
        stepCalls := [TickCall(t.sessionId, t.timerName, t.expireAt - now)];
        var updated := t.(nextTick := now + t.frequency);
        reg.zset := (reg.zset - {element})[Json(updated) := updated.nextTick];
        reg.index := reg.index[key := Json(updated)];
      }
    }
  }

  /** `global_tick` with the correction: the index is updated in the same pipeline. */
  method GlobalTickSynced(reg: TimerManager, now: int, result: TimeoutResult) returns (due: seq<Member>, calls: seq<Call>)
    modifies reg
    ensures IsDueList(old(reg.zset), now, due)
    ensures reg.Model() == PassSynced(old(reg.Model()), due, now, result)
    ensures calls == PassCalls(due, now, result)
  {
    due := RangeByScore(reg, now);
    calls := [];
    ghost var start := reg.Model();
    var i := 0;
    while i < |due|
      invariant 0 <= i <= |due|
      invariant reg.Model() == PassSynced(start, due[..i], now, result)
      invariant calls == PassCalls(due[..i], now, result)
    {
      var stepCalls := TickSynced(reg, due[i], now, result);
      calls := calls + stepCalls;
      assert due[..i + 1][..i] == due[..i];
      i := i + 1;
    }
    assert due[..i] == due;
  }
}
