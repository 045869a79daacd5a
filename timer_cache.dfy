/** The timer-list cache of GetTimersAsync: a single entry under the fixed key
    "timers" with a 20-second absolute expiry, plus an invalidation flag that
    the timer mutators raise. This module states the cache's behaviour on
    values; the service class in TvService keeps the same state in fields and
    is proved to follow it. Instants are clock readings in ticks. */
module TimerCache {
  import opened Base
  import opened Entities

  /** AddSeconds(20) on the clock reading, in ticks. */
  const TimerCacheLifetime: int := 20 * TicksPerSecond

  /** The value stored under "timers" and its absolute expiry. */
  datatype CacheEntry = CacheEntry(timers: seq<TimerInfo>, expiresAt: int)

  /** The invalidation flag and the (at most one) cached entry. */
  datatype CacheState = CacheState(refreshTimers: bool, entry: Option<CacheEntry>)

  /** An absolute expiry has passed once the clock reaches it. */
  predicate IsLive(entry: Option<CacheEntry>, now: int)
  {
    entry.Some? && now < entry.value.expiresAt
  }

  /** What a read leaves behind, what it returns, and whether it asked the backend. */
  datatype ReadOutcome = ReadOutcome(state: CacheState, result: Result<seq<TimerInfo>>, fetched: bool)

  /** CreateTimerAsync, UpdateTimerAsync, CancelTimerAsync: raise the flag; the entry stays until the next read. */
  function Invalidate(s: CacheState): CacheState
  {
    s.(refreshTimers := true)
  }

  /** GetTimersAsync at clock reading `now`; `schedules` is what the backend's
      schedule list call would yield if asked. With the cache enabled: a raised
      flag drops the entry and is cleared; with no live entry left (an expired
      one is dropped by the lookup) the backend is asked and its list stored
      until now + 20 s; the stored list is returned. With the cache disabled
      the backend is always asked and nothing is stored. */
  function ReadTimers(s: CacheState, cacheEnabled: bool, now: int, schedules: Result<seq<TimerInfo>>): (o: ReadOutcome)
    ensures !cacheEnabled ==> o.fetched && o.state == s
    ensures cacheEnabled ==> !o.state.refreshTimers
    ensures cacheEnabled ==> (o.fetched <==> s.refreshTimers || !IsLive(s.entry, now))
    ensures o.fetched ==> o.result == schedules
    ensures !o.fetched ==> s.entry.Some? && o.result == Success(s.entry.value.timers) && o.state == s
    ensures cacheEnabled && o.fetched && schedules.Success? ==>
      o.state.entry == Some(CacheEntry(schedules.value, now + TimerCacheLifetime))
    ensures cacheEnabled && o.fetched && schedules.Failure? ==> o.state.entry == None
  {
    if !cacheEnabled then
      ReadOutcome(s, schedules, true)
    else
      var afterFlag := if s.refreshTimers then CacheState(false, None) else s;
      if IsLive(afterFlag.entry, now) then
        ReadOutcome(afterFlag, Success(afterFlag.entry.value.timers), false)
      else
        match schedules
        case Success(ts) => ReadOutcome(CacheState(false, Some(CacheEntry(ts, now + TimerCacheLifetime))), Success(ts), true)
        case Failure(f) => ReadOutcome(CacheState(false, None), Failure(f), true)
  }

  /** A read right after a mutation asks the backend, however recent the
      entry, and returns the backend's current list (or its error). */
  lemma MutationForcesRefetch(s: CacheState, now: int, schedules: Result<seq<TimerInfo>>)
    ensures var o := ReadTimers(Invalidate(s), true, now, schedules);
      o.fetched && o.result == schedules && !o.state.refreshTimers
  {
  }

  /** Two reads less than 20 s apart with no mutation between them, the first
      succeeding, ask the backend at most once; when the first one fetched, or
      the entry it served is still live at the second, both return the same list. */
  lemma TwoReadsWithinLifetime(s: CacheState, t1: int, t2: int, b1: Result<seq<TimerInfo>>, b2: Result<seq<TimerInfo>>)
    requires t2 < t1 + TimerCacheLifetime
    requires ReadTimers(s, true, t1, b1).result.Success?
    ensures var o1 := ReadTimers(s, true, t1, b1);
      var o2 := ReadTimers(o1.state, true, t2, b2);
      !(o1.fetched && o2.fetched) &&
      (o1.fetched || IsLive(o1.state.entry, t2) ==> o2.result == o1.result && !o2.fetched)
  {
  }

  /** A sequence of operations against the cache, in the order issued. */
  datatype Op = Read(now: int, schedules: Result<seq<TimerInfo>>) | Mutate

  /** The final state, the result of every read in order, and the number of backend fetches. */
  datatype Trace = Trace(state: CacheState, results: seq<Result<seq<TimerInfo>>>, fetches: nat)

  function Run(s: CacheState, cacheEnabled: bool, ops: seq<Op>): Trace
    decreases |ops|
  {
    if ops == [] then Trace(s, [], 0)
    else
      match ops[0]
      case Mutate => Run(Invalidate(s), cacheEnabled, ops[1..])
      case Read(now, schedules) =>
        var o := ReadTimers(s, cacheEnabled, now, schedules);
        var rest := Run(o.state, cacheEnabled, ops[1..]);
        Trace(rest.state, [o.result] + rest.results, (if o.fetched then 1 else 0) + rest.fetches)
  }

  /** The backend's answers at each read of a sequence of operations. */
  function BackendAnswers(ops: seq<Op>): seq<Result<seq<TimerInfo>>>
  {
    if ops == [] then []
    else if ops[0].Read? then [ops[0].schedules] + BackendAnswers(ops[1..])
    else BackendAnswers(ops[1..])
  }

  /** With the cache disabled every read asks the backend exactly once and
      returns its answer, and the cached entry is never touched. */
  lemma {:induction false} DisabledCacheFetchesOnEveryRead(s: CacheState, ops: seq<Op>)
    ensures Run(s, false, ops).fetches == |BackendAnswers(ops)|
    ensures Run(s, false, ops).results == BackendAnswers(ops)
    ensures Run(s, false, ops).state.entry == s.entry
    decreases |ops|
  {
    if ops != [] {
      match ops[0]
      case Mutate =>
        DisabledCacheFetchesOnEveryRead(Invalidate(s), ops[1..]);
      case Read(now, schedules) =>
        DisabledCacheFetchesOnEveryRead(s, ops[1..]);
    }
  }

  /** While a clean entry is live, any number of reads are all served from it,
      and none asks the backend. */
  lemma {:induction false} LiveEntryServesEveryRead(ts: seq<TimerInfo>, expiresAt: int, ops: seq<Op>)
    requires forall i :: 0 <= i < |ops| ==> ops[i].Read? && ops[i].now < expiresAt
    ensures var s := CacheState(false, Some(CacheEntry(ts, expiresAt)));
      Run(s, true, ops) == Trace(s, seq(|ops|, _ => Success(ts)), 0)
  {
    var s := CacheState(false, Some(CacheEntry(ts, expiresAt)));
    if ops != [] {
      LiveEntryServesEveryRead(ts, expiresAt, ops[1..]);
      assert seq(|ops|, _ => Success(ts)) == [Success(ts)] + seq(|ops| - 1, _ => Success(ts));
    }
  }

  /** A successful cached read followed by any number of further reads, with
      no mutation between them, all before the expiry of the entry the first
      read leaves (now + 20 s when it fetched): the backend is asked at most
      once, by the first read, and every read returns the same list. */
  lemma {:induction false} ReadsWithinLifetimeShareOneList(s: CacheState, t: int, b: Result<seq<TimerInfo>>, ops: seq<Op>)
    requires ReadTimers(s, true, t, b).result.Success?
    requires forall i :: 0 <= i < |ops| ==> ops[i].Read? && IsLive(ReadTimers(s, true, t, b).state.entry, ops[i].now)
    ensures var o1 := ReadTimers(s, true, t, b);
      var run := Run(s, true, [Read(t, b)] + ops);
      run.fetches == (if o1.fetched then 1 else 0) &&
      run.results == seq(|ops| + 1, _ => o1.result) &&
      (o1.fetched ==> o1.state.entry.value.expiresAt == t + TimerCacheLifetime)
  {
    var o1 := ReadTimers(s, true, t, b);
    var all := [Read(t, b)] + ops;
    assert all[0] == Read(t, b) && all[1..] == ops;
    var e := o1.state.entry.value;
    assert o1.state == CacheState(false, Some(CacheEntry(e.timers, e.expiresAt)));
    LiveEntryServesEveryRead(e.timers, e.expiresAt, ops);
    assert o1.result == Success(e.timers);
    assert [o1.result] + seq(|ops|, _ => Success(e.timers)) == seq(|ops| + 1, _ => o1.result);
  }

  /** GetTimersAsync exactly as written, with the cache enabled: the lookup
      (Contains) and the expiry base are taken at `now`, the backend is then
      asked, and the value is read back (Get) at `later`, once the call has
      returned. None stands for the null task that the cast of a missing
      entry yields. */
  function ReadTimersAsWritten(s: CacheState, now: int, later: int, schedules: Result<seq<TimerInfo>>): (r: Option<Result<seq<TimerInfo>>>)
    requires now <= later
    ensures r.None? ==> !IsLive(ReadTimers(s, true, now, schedules).state.entry, later)
  {
    var afterFlag := if s.refreshTimers then CacheState(false, None) else s;
    if IsLive(afterFlag.entry, now) then
      if IsLive(afterFlag.entry, later) then Some(Success(afterFlag.entry.value.timers)) else None
    else
      match schedules
      case Failure(f) => Some(Failure(f))
      case Success(ts) => if later < now + TimerCacheLifetime then Some(Success(ts)) else None
  }

  /** A cold read whose backend call takes 20 s stores an entry that has
      already expired, so Get finds nothing and the read returns null. */
  lemma SlowFetchReturnsNull(now: int, ts: seq<TimerInfo>)
    ensures ReadTimersAsWritten(CacheState(false, None), now, now + TimerCacheLifetime, Success(ts)) == None
  {
  }

  /** When the read completes before the entry it relies on expires, the
      source as written and the corrected read agree. */
  lemma AsWrittenAgreesWhilePrompt(s: CacheState, now: int, later: int, schedules: Result<seq<TimerInfo>>)
    requires now <= later
    requires IsLive(ReadTimers(s, true, now, schedules).state.entry, later) || ReadTimers(s, true, now, schedules).result.Failure?
    ensures ReadTimersAsWritten(s, now, later, schedules) == Some(ReadTimers(s, true, now, schedules).result)
  {
  }

  /** The corrected read always answers: with the entry or the backend's list
      when there is one, otherwise with the backend's error. */
  lemma ReadTimersAlwaysAnswers(s: CacheState, now: int, schedules: Result<seq<TimerInfo>>)
    ensures var o := ReadTimers(s, true, now, schedules);
      o.result.Failure? <==> o.fetched && schedules.Failure?
  {
  }
}
