/** What the rate limiter guarantees over whole runs of calls. */
module RateBounds {
  import opened Domain
  import opened RateLimiter

  predicate Sorted(times: seq<int>) {
    forall i, j :: 0 <= i < j < |times| ==> times[i] <= times[j]
  }

  /** The track of one key that is never evicted, after calls at `times`. */
  function Replay(limit: int, window: int, times: seq<int>): Option<Track> {
    if times == [] then None
    else Some(KeyStep(limit, window, Replay(limit, window, times[..|times|-1]), times[|times|-1]).track)
  }

  /** The verdict on one more call. */
  function Verdict(limit: int, window: int, times: seq<int>, now: int): Outcome {
    KeyStep(limit, window, Replay(limit, window, times), now)
  }

  /** How many of the calls at `times` that fall in [from, to) were admitted. */
  function Admitted(limit: int, window: int, times: seq<int>, from: int, to: int): nat {
    if times == [] then 0 else
      var front, now := times[..|times|-1], times[|times|-1];
      Admitted(limit, window, front, from, to) +
      if from <= now < to && Verdict(limit, window, front, now).allowed then 1 else 0
  }

  lemma {:induction false} TrackIsRecent(limit: int, window: int, times: seq<int>)
    requires 1 <= limit && 1 <= window && Sorted(times) && times != []
    ensures var tr := Replay(limit, window, times).value;
            1 <= tr.count <= limit && tr.started <= times[|times|-1]
    decreases |times|
  {
    var front := times[..|times|-1];
    if front != [] {
      TrackIsRecent(limit, window, front);
      assert front[|front|-1] <= times[|times|-1];
    }
  }

  lemma {:induction false} NothingBefore(limit: int, window: int, times: seq<int>, from: int, to: int)
    requires forall i | 0 <= i < |times| :: times[i] < from
    ensures Admitted(limit, window, times, from, to) == 0
    decreases |times|
  {
    if times != [] {
      NothingBefore(limit, window, times[..|times|-1], from, to);
    }
  }

  /** The count of the current window is exactly what was admitted since it started. */
  lemma {:induction false} CountIsExact(limit: int, window: int, times: seq<int>)
    requires 1 <= limit && 1 <= window && Sorted(times) && times != []
    ensures var tr := Replay(limit, window, times).value;
            Admitted(limit, window, times, tr.started, tr.started + window) == tr.count <= limit
    decreases |times|
  {
    TrackIsRecent(limit, window, times);
    var front, now := times[..|times|-1], times[|times|-1];
    var tr := Replay(limit, window, times).value;
    if front != [] && InWindow(window, Replay(limit, window, front), now) {
      CountIsExact(limit, window, front);
    } else {
      if front != [] {
        TrackIsRecent(limit, window, front);
        SinceLater(limit, window, front, now, now + window);
      }
    }
  }

  /** Nothing was admitted at or after a time the current window does not reach. */
  lemma {:induction false} SinceLater(limit: int, window: int, times: seq<int>, from: int, to: int)
    requires 1 <= limit && 1 <= window && Sorted(times) && times != []
    requires Replay(limit, window, times).value.started + window <= from
    ensures Admitted(limit, window, times, from, to) == 0
    decreases |times|
  {
    TrackIsRecent(limit, window, times);
    var front, now := times[..|times|-1], times[|times|-1];
    if front == [] {
    } else if InWindow(window, Replay(limit, window, front), now) {
      SinceLater(limit, window, front, from, to);
    } else {
      NothingBefore(limit, window, front, from, to);
    }
  }

  /** Where a half-open interval of one window length stands against the current window. */
  ghost predicate IntervalBound(limit: int, window: int, times: seq<int>, from: int) {
    var n := Admitted(limit, window, times, from, from + window);
    if times == [] then n == 0 else
      var tr := Replay(limit, window, times).value;
      if tr.started < from then n <= tr.count - 1
      else if tr.started < from + window then n <= tr.count + limit - 1
      else n <= 2 * limit - 1
  }

  lemma {:induction false} IntervalStep(limit: int, window: int, times: seq<int>, from: int)
    requires 1 <= limit && 1 <= window && Sorted(times)
    ensures IntervalBound(limit, window, times, from)
    decreases |times|
  {
    if times != [] {
      var front, now := times[..|times|-1], times[|times|-1];
      IntervalStep(limit, window, front, from);
      TrackIsRecent(limit, window, times);
      if front != [] {
        TrackIsRecent(limit, window, front);
        assert front[|front|-1] <= now;
      }
      if now < from { NothingBefore(limit, window, times, from, from + window); }
    }
  }

  /** In any half-open interval of one window length at most 2 * limit - 1 calls are admitted. */
  lemma RateBound(limit: int, window: int, times: seq<int>, from: int)
    requires 1 <= limit && 1 <= window && Sorted(times)
    ensures Admitted(limit, window, times, from, from + window) <= 2 * limit - 1
  {
    IntervalStep(limit, window, times, from);
    if times != [] { TrackIsRecent(limit, window, times); }
  }

  // ----- the bound is reached -----

  function Burst(at: int, n: nat): seq<int> {
    if n == 0 then [] else Burst(at, n - 1) + [at]
  }

  lemma {:induction false} BurstMembers(at: int, n: nat)
    ensures |Burst(at, n)| == n && forall i | 0 <= i < n :: Burst(at, n)[i] == at
  {
    if n > 0 { BurstMembers(at, n - 1); }
  }

  /** Where a run of calls has brought the key, and how many of them fell in [from, to) and were admitted. */
  ghost predicate Brings(limit: int, window: int, times: seq<int>, from: int, to: int, track: Track, admitted: nat) {
    Replay(limit, window, times) == Some(track) && Admitted(limit, window, times, from, to) == admitted
  }

  lemma OneMore(limit: int, window: int, times: seq<int>, at: int, from: int, to: int, track: Track, admitted: nat)
    requires from <= at < to && Brings(limit, window, times, from, to, track, admitted)
    requires KeyStep(limit, window, Some(track), at).allowed
    ensures Brings(limit, window, times + [at], from, to, KeyStep(limit, window, Some(track), at).track, admitted + 1)
  {
  }

  lemma {:induction false} BurstIsAdmitted(limit: int, window: int, times: seq<int>, at: int, n: nat,
                                           from: int, to: int, track: Track, admitted: nat)
    requires from <= at < to && Brings(limit, window, times, from, to, track, admitted)
    requires 0 <= at - track.started < window && track.count + n <= limit
    ensures Brings(limit, window, times + Burst(at, n), from, to, Track(track.started, track.count + n), admitted + n)
    decreases n
  {
    if n == 0 {
      assert times + [] == times;
    } else {
      BurstIsAdmitted(limit, window, times, at, n - 1, from, to, track, admitted);
      var front := times + Burst(at, n - 1);
      assert times + Burst(at, n) == front + [at];
      OneMore(limit, window, front, at, from, to, Track(track.started, track.count + n - 1), admitted + n - 1);
    }
  }

  /** A sorted run whose last call is not after `at`. */
  predicate Until(times: seq<int>, at: int) {
    Sorted(times) && (times != [] ==> times[|times|-1] <= at)
  }

  lemma BurstSorted(times: seq<int>, at: int, n: nat)
    requires Until(times, at)
    ensures Until(times + Burst(at, n), at)
  {
    BurstMembers(at, n);
  }

  /** The first window: one call at 0 and the rest of the allowance at its last instant. */
  lemma LateBurst(limit: int, window: int) returns (times: seq<int>)
    requires 1 <= limit && 2 <= window
    ensures Until(times, window - 1)
    ensures Brings(limit, window, times, window - 1, window - 1 + window, Track(0, limit), limit - 1)
  {
    var opening := [0];
    assert opening[..0] == [];
    BurstSorted(opening, window - 1, limit - 1);
    BurstIsAdmitted(limit, window, opening, window - 1, limit - 1, window - 1, window - 1 + window, Track(0, 1), 0);
    times := opening + Burst(window - 1, limit - 1);
  }

  /** One call opens a window, the rest of its allowance comes at its very end, and the next
      window's allowance right after: 2 * limit - 1 calls within one window length. */
  lemma RateBoundIsReached(limit: int, window: int) returns (times: seq<int>)
    requires 1 <= limit && 2 <= window
    ensures Sorted(times)
    ensures Admitted(limit, window, times, window - 1, window - 1 + window) == 2 * limit - 1
  {
    var from, to := window - 1, window - 1 + window;
    var first := LateBurst(limit, window);
    OneMore(limit, window, first, window, from, to, Track(0, limit), limit - 1);
    var second := first + [window];
    BurstSorted(second, window, limit - 1);
    BurstIsAdmitted(limit, window, second, window, limit - 1, from, to, Track(window, 1), limit);
    times := second + Burst(window, limit - 1);
  }

  // ----- denials -----

  /** A denial's retry delay is within the window, and whatever else the key tries meanwhile, a
      call is admitted if and only if the delay has passed. */
  lemma {:induction false} DelayIsExact(limit: int, window: int, times: seq<int>, now: int, more: seq<int>, later: int)
    requires 1 <= limit && 1 <= window && !Verdict(limit, window, times, now).allowed && now <= later
    requires forall i | 0 <= i < |more| :: now <= more[i] < now + Verdict(limit, window, times, now).delay
    ensures 0 < Verdict(limit, window, times, now).delay <= window
    ensures Replay(limit, window, times + more) == Replay(limit, window, times)
    ensures Verdict(limit, window, times + more, later).allowed <==>
            later >= now + Verdict(limit, window, times, now).delay
    decreases |more|
  {
    if more == [] {
      assert times + more == times;
    } else {
      DelayIsExact(limit, window, times, now, more[..|more|-1], more[|more|-1]);
      assert (times + more)[..|times + more|-1] == times + more[..|more|-1];
    }
  }

  // ----- the table stays bounded -----

  /** From a table that fits, one insertion leaves a table that fits, and costs nothing but expired
      entries and at most one live entry, an oldest one. */
  lemma EvictionIsMinimal(before: Clients, key: string, window: int, now: int, kept: Clients)
    requires |before| <= MAX_TRACKED && 1 <= window
    requires Trimmed(before[key := Track(now, 1)], kept, window, now)
    ensures |kept| <= 1024
    ensures Within(kept, before[key := Track(now, 1)])
    ensures var full := before[key := Track(now, 1)];
            && (|full| <= 1024 ==> kept == full)
            && (|full| > 1024 ==> forall k | k in kept :: now - kept[k].started < window)
            && (forall j, k | j in full && k in full && j !in kept && k !in kept && j != k ::
                  now - full[j].started >= window || now - full[k].started >= window)
            && (forall j, k | j in full && k in full && j !in kept ::
                  || now - full[j].started >= window || now - full[k].started >= window
                  || full[j].started <= full[k].started)
  {
    var full := before[key := Track(now, 1)];
    var live := Live(full, window, now);
    assert full.Keys == before.Keys + {key};
    assert live.Keys <= full.Keys;
    Cardinality(live.Keys, full.Keys);
    assert key in live;
  }

  lemma {:induction false} Cardinality<T>(a: set<T>, b: set<T>)
    requires a <= b
    ensures |a| <= |b|
  {
    assert b == a + (b - a);
  }

  // ----- the table against the single key -----

  datatype Call = Call(key: string, now: int)

  /** `tables[i]` is the table before call i; the clock never goes back. */
  ghost predicate TableRun(limit: int, window: int, calls: seq<Call>, tables: seq<Clients>) {
    && |tables| == |calls| + 1 && tables[0] == map[]
    && (forall i, j :: 0 <= i < j < |calls| ==> calls[i].now <= calls[j].now)
    && (forall i :: 0 <= i < |calls| ==> AllowStep(limit, window, tables[i], calls[i].key, calls[i].now, tables[i+1]))
  }

  /** The table never holds more than MAX_TRACKED clients, before any call of any run. */
  lemma {:induction false} TableStaysBounded(limit: int, window: int, calls: seq<Call>, tables: seq<Clients>, i: nat)
    requires 1 <= window && TableRun(limit, window, calls, tables) && i < |tables|
    ensures |tables[i]| <= 1024
    decreases i
  {
    if i > 0 {
      var before, call, after := tables[i-1], calls[i-1], tables[i];
      TableStaysBounded(limit, window, calls, tables, i - 1);
      assert AllowStep(limit, window, before, call.key, call.now, after);
      if InWindow(window, Lookup(before, call.key), call.now) {
        assert after.Keys == before.Keys;
      } else {
        EvictionIsMinimal(before, call.key, window, call.now, after);
      }
    }
  }

  predicate Spent(window: int, track: Option<Track>, now: int) {
    track.None? || now - track.value.started >= window
  }

  /** No call evicted the key while its window was running. */
  ghost predicate NotEvicted(window: int, key: string, calls: seq<Call>, tables: seq<Clients>) {
    && |tables| == |calls| + 1
    && forall i :: 0 <= i < |calls| && (key == calls[i].key || !Spent(window, Lookup(tables[i], key), calls[i].now)) ==>
         key in tables[i+1]
  }

  /** When the key called. */
  function TimesOf(key: string, calls: seq<Call>): seq<int> {
    if calls == [] then []
    else TimesOf(key, calls[..|calls|-1]) + if calls[|calls|-1].key == key then [calls[|calls|-1].now] else []
  }

  ghost predicate SameVerdicts(window: int, a: Option<Track>, b: Option<Track>, now: int) {
    a == b || (Spent(window, a, now) && Spent(window, b, now))
  }

  lemma TimesGrow(key: string, calls: seq<Call>, call: Call, limit: int, window: int)
    ensures TimesOf(key, calls + [call]) == TimesOf(key, calls) + if call.key == key then [call.now] else []
    ensures Replay(limit, window, TimesOf(key, calls + [call])) ==
            if call.key == key then Some(Verdict(limit, window, TimesOf(key, calls), call.now).track)
            else Replay(limit, window, TimesOf(key, calls))
  {
    assert (calls + [call])[..|calls|] == calls;
    var times := TimesOf(key, calls);
    assert (times + [call.now])[..|times|] == times;
    assert times + [] == times;
  }

  lemma RunPrefix(limit: int, window: int, calls: seq<Call>, tables: seq<Clients>, key: string)
    requires calls != [] && TableRun(limit, window, calls, tables) && NotEvicted(window, key, calls, tables)
    ensures var n := |calls| - 1;
            && TableRun(limit, window, calls[..n], tables[..n+1]) && NotEvicted(window, key, calls[..n], tables[..n+1])
            && (n > 0 ==> calls[n-1].now <= calls[n].now)
            && AllowStep(limit, window, tables[n], calls[n].key, calls[n].now, tables[n+1])
            && (key == calls[n].key || !Spent(window, Lookup(tables[n], key), calls[n].now) ==> key in tables[n+1])
  {
  }

  /** While a key's window is not evicted the table answers for it as if it were alone: evicting
      an expired entry is invisible. */
  lemma {:induction false} TableRefinesReplay(limit: int, window: int, calls: seq<Call>, tables: seq<Clients>,
                                              key: string, now: int)
    requires 1 <= window && TableRun(limit, window, calls, tables) && NotEvicted(window, key, calls, tables)
    requires calls != [] ==> calls[|calls|-1].now <= now
    ensures SameVerdicts(window, Lookup(tables[|calls|], key), Replay(limit, window, TimesOf(key, calls)), now)
    ensures KeyStep(limit, window, Lookup(tables[|calls|], key), now) ==
            Verdict(limit, window, TimesOf(key, calls), now)
    decreases |calls|
  {
    if calls != [] {
      var n := |calls| - 1;
      var front, call := calls[..n], calls[n];
      RunPrefix(limit, window, calls, tables, key);
      TableRefinesReplay(limit, window, front, tables[..n+1], key, call.now);
      TimesGrow(key, front, call, limit, window);
      assert front + [call] == calls;
      TableStep(limit, window, tables[n], call, tables[n+1], key, Replay(limit, window, TimesOf(key, front)), now);
    }
  }

  lemma TableStep(limit: int, window: int, before: Clients, call: Call, after: Clients, key: string,
                  track: Option<Track>, now: int)
    requires 1 <= window && AllowStep(limit, window, before, call.key, call.now, after) && call.now <= now
    requires key == call.key || !Spent(window, Lookup(before, key), call.now) ==> key in after
    requires SameVerdicts(window, Lookup(before, key), track, call.now)
    ensures SameVerdicts(window, Lookup(after, key),
                         if call.key == key then Some(KeyStep(limit, window, track, call.now).track) else track, now)
  {
  }
}
