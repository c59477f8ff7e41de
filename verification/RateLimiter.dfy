/** The fixed-window rate limiter with a bounded table of clients.

    Times are whole nanoseconds, as time.Time and time.Duration count them.
 */
module RateLimiter {
  import opened Domain

  const MAX_TRACKED := 1024

  datatype Track = Track(started: int, count: int)

  type Clients = map<string, Track>

  /** One call for one key: the track it leaves behind, the verdict and the retry delay. */
  datatype Outcome = Outcome(track: Track, allowed: bool, delay: int)

  predicate InWindow(window: int, track: Option<Track>, now: int) {
    track.Some? && 0 <= now - track.value.started < window
  }

  function KeyStep(limit: int, window: int, track: Option<Track>, now: int): Outcome {
    if !InWindow(window, track, now) then Outcome(Track(now, 1), true, 0)
    else if track.value.count >= limit then Outcome(track.value, false, window - (now - track.value.started))
    else Outcome(track.value.(count := track.value.count + 1), true, 0)
  }

  function Lookup(clients: Clients, key: string): Option<Track> {
    if key in clients then Some(clients[key]) else None
  }

  // ----- keys -----

  /** The characters strings.TrimSpace removes. */
  predicate IsSpace(c: char) {
    || c in {'\t', '\n', '\U{0B}', '\U{0C}', '\r', ' ', '\U{85}', '\U{A0}', '\U{1680}'}
    || c in {'\U{2028}', '\U{2029}', '\U{202F}', '\U{205F}', '\U{3000}'}
    || '\U{2000}' <= c <= '\U{200A}'
  }

  /** By code point: Unicode's white space. */
  lemma SpaceCodes(c: char)
    ensures IsSpace(c) <==> var n := c as int;
              || 9 <= n <= 13 || n == 32 || n == 133 || n == 160 || n == 5760 || 8192 <= n <= 8202
              || n == 8232 || n == 8233 || n == 8239 || n == 8287 || n == 12288
  {
  }

  function TrimLeft(s: string): string {
    if s != [] && IsSpace(s[0]) then TrimLeft(s[1..]) else s
  }

  function TrimRight(s: string): string {
    if s != [] && IsSpace(s[|s|-1]) then TrimRight(s[..|s|-1]) else s
  }

  function Normalize(key: string): string {
    var trimmed := TrimRight(TrimLeft(key));
    if trimmed == "" then "unknown" else trimmed
  }

  /** Neither end is a space. */
  predicate Tight(s: string) {
    s != [] ==> !IsSpace(s[0]) && !IsSpace(s[|s|-1])
  }

  lemma {:induction false} TrimLeftTight(s: string)
    ensures TrimLeft(s) == [] || !IsSpace(TrimLeft(s)[0])
    decreases |s|
  {
    if s != [] && IsSpace(s[0]) { TrimLeftTight(s[1..]); }
  }

  lemma {:induction false} TrimRightTight(s: string)
    requires s == [] || !IsSpace(s[0])
    ensures Tight(TrimRight(s))
    decreases |s|
  {
    if s != [] && IsSpace(s[|s|-1]) { TrimRightTight(s[..|s|-1]); }
  }

  /** A key in use is never empty, and it is its own normal form. */
  lemma NormalForm(key: string)
    ensures Normalize(key) != "" && Tight(Normalize(key))
    ensures Normalize(Normalize(key)) == Normalize(key)
  {
    TrimLeftTight(key);
    TrimRightTight(TrimLeft(key));
    assert !IsSpace('u') && !IsSpace('n');
  }

  predicate AllSpaces(s: string) {
    forall i | 0 <= i < |s| :: IsSpace(s[i])
  }

  /** `core` is what stands between the spaces around a key. */
  ghost predicate IsCore(key: string, core: string) {
    core != "" && Tight(core) &&
    exists left, right :: key == left + core + right && AllSpaces(left) && AllSpaces(right)
  }

  lemma {:induction false} TrimLeftDrops(s: string) returns (n: nat)
    ensures n <= |s| && TrimLeft(s) == s[n..] && AllSpaces(s[..n])
    decreases |s|
  {
    n := 0;
    if s != [] && IsSpace(s[0]) {
      var k := TrimLeftDrops(s[1..]);
      n := k + 1;
      assert s[..n] == [s[0]] + s[1..][..k];
    }
  }

  lemma {:induction false} TrimRightDrops(s: string) returns (n: nat)
    ensures n <= |s| && TrimRight(s) == s[..n] && AllSpaces(s[n..])
    decreases |s|
  {
    n := |s|;
    if s != [] && IsSpace(s[|s|-1]) {
      n := TrimRightDrops(s[..|s|-1]);
      assert s[n..] == s[..|s|-1][n..] + [s[|s|-1]];
    }
  }

  lemma CutTwice(key: string, i: nat, j: nat)
    requires i <= |key| && j <= |key| - i
    ensures key == key[..i] + key[i..][..j] + key[i..][j..]
  {
  }

  /** Trimming leaves the core. */
  lemma TrimFindsCore(key: string)
    ensures var core := TrimRight(TrimLeft(key)); if core == "" then AllSpaces(key) else IsCore(key, core)
  {
    TrimLeftTight(key);
    TrimRightTight(TrimLeft(key));
    var i := TrimLeftDrops(key);
    var j := TrimRightDrops(key[i..]);
    CutTwice(key, i, j);
    assert AllSpaces(key[..i]) && AllSpaces(key[i..][j..]);
  }

  /** There is only one. */
  lemma OnlyCore(left: string, core: string, right: string, left': string, core': string, right': string)
    requires left + core + right == left' + core' + right'
    requires AllSpaces(left) && AllSpaces(left') && AllSpaces(right) && AllSpaces(right')
    requires core != "" && core' != "" && Tight(core) && Tight(core')
    ensures core == core'
  {
    var key, end, end' := left + core + right, |left| + |core|, |left'| + |core'|;
    assert key[|left|] == core[0] && key[|left'|] == core'[0];
    assert key[end - 1] == core[|core|-1] && key[end' - 1] == core'[|core'|-1];
    assert forall i | 0 <= i < |left| :: key[i] == left[i];
    assert forall i | 0 <= i < |left'| :: key[i] == left'[i];
    assert forall i | end <= i < |key| :: key[i] == right[i - end];
    assert forall i | end' <= i < |key| :: key[i] == right'[i - end'];
    assert core == key[|left|..end] && core' == key[|left'|..end'];
  }

  lemma CoreIsNoSpace(key: string, core: string)
    requires IsCore(key, core)
    ensures !AllSpaces(key)
  {
    var left, right :| key == left + core + right && AllSpaces(left) && AllSpaces(right);
    assert key[|left|] == core[0];
  }

  /** The normal form of a key is the one part of it that is tight and has only spaces around it, and
      "unknown" if there is none, which is if it is nothing but spaces. */
  lemma NormalizeExact(key: string)
    ensures AllSpaces(key) ==> Normalize(key) == "unknown"
    ensures !AllSpaces(key) ==> IsCore(key, Normalize(key))
    ensures forall core :: IsCore(key, core) ==> Normalize(key) == core
  {
    TrimFindsCore(key);
    if TrimRight(TrimLeft(key)) != "" { CoreIsNoSpace(key, TrimRight(TrimLeft(key))); }
    forall core | IsCore(key, core) ensures TrimRight(TrimLeft(key)) == core {
      CoreIsNoSpace(key, core);
      var left, right :| key == left + core + right && AllSpaces(left) && AllSpaces(right);
      var mine := TrimRight(TrimLeft(key));
      var left', right' :| key == left' + mine + right' && AllSpaces(left') && AllSpaces(right');
      OnlyCore(left, core, right, left', mine, right');
    }
  }

  /** Callers whose addresses carry no spaces around them never share an entry. */
  lemma TightKeysApart(a: string, b: string)
    requires a != "" && b != "" && Tight(a) && Tight(b)
    ensures Normalize(a) == a
    ensures Normalize(a) == Normalize(b) ==> a == b
  {
    TightIsCore(a);
    TightIsCore(b);
    NormalizeExact(a);
    NormalizeExact(b);
  }

  lemma TightIsCore(key: string)
    requires key != "" && Tight(key)
    ensures IsCore(key, key)
  {
    var none: string := "";
    assert key == none + key + none;
    assert AllSpaces(none);
  }

  /** A call is denied only within the window and with the limit used up; a clock that was set back
      behind the start of the window begins a new one. */
  lemma DenialIsExact(limit: int, window: int, track: Option<Track>, now: int)
    ensures var o := KeyStep(limit, window, track, now);
            && (!o.allowed <==> track.Some? && track.value.started <= now < track.value.started + window &&
                                limit <= track.value.count)
            && (!o.allowed ==> o.track == track.value && now + o.delay == track.value.started + window)
            && (o.allowed ==> o.delay == 0)
            && (track.None? || now < track.value.started ==> o.track == Track(now, 1))
  {
  }

  // ----- the table -----

  function Live(clients: Clients, window: int, now: int): Clients {
    map k | k in clients && now - clients[k].started < window :: clients[k]
  }

  predicate Oldest(clients: Clients, key: string) {
    key in clients && forall k | k in clients :: clients[key].started <= clients[k].started
  }

  predicate Within(a: Clients, b: Clients) {
    forall k | k in a :: k in b && a[k] == b[k]
  }

  /** What eviction leaves of `full`: everything while it fits; else only live entries, of which
      an oldest one goes first and no more than needed to fit. */
  ghost predicate Trimmed(full: Clients, kept: Clients, window: int, now: int) {
    var live := Live(full, window, now);
    if |full| <= MAX_TRACKED then kept == full
    else if |live| <= MAX_TRACKED then kept == live
    else
      && |kept| == MAX_TRACKED
      && Within(kept, live)
      && exists k :: Oldest(live, k) && k !in kept && (|live| == MAX_TRACKED + 1 ==> kept == live - {k})
  }

  /** One call against the whole table. */
  ghost predicate AllowStep(limit: int, window: int, before: Clients, key: string, now: int, after: Clients) {
    var o := KeyStep(limit, window, Lookup(before, key), now);
    if InWindow(window, Lookup(before, key), now)
    then after == before[key := o.track]
    else Trimmed(before[key := o.track], after, window, now)
  }

  /** One caller's call does not change what the table knows about another, unless it evicts it. */
  lemma CallersApart(a: string, b: string, limit: int, window: int, before: Clients, now: int, after: Clients)
    requires a != "" && b != "" && Tight(a) && Tight(b) && a != b
    requires AllowStep(limit, window, before, Normalize(a), now, after)
    ensures b in after ==> b in before && after[b] == before[b]
  {
    TightKeysApart(a, b);
  }

  class RateLimiter {
    const limit: int
    const window: int
    var clients: Clients

    ghost predicate Valid()
      reads this
    {
      && 1 <= limit && 1 <= window
      && "" !in clients
      && forall k | k in clients :: 1 <= clients[k].count <= limit
    }

    constructor (limit: int, window: int)
      ensures Valid() && clients == map[]
      ensures this.limit == if limit < 1 then 1 else limit
      ensures this.window == if window <= 0 then 60_000_000_000 else window
    {
      this.limit := if limit < 1 then 1 else limit;
      this.window := if window <= 0 then 60_000_000_000 else window;
      clients := map[];
    }

    method Allow(caller: string, now: int) returns (allowed: bool, retryAfter: int)
      requires Valid()
      modifies this`clients
      ensures Valid()
      ensures var key := Normalize(caller);
              var o := KeyStep(limit, window, Lookup(old(clients), key), now);
              && allowed == o.allowed && retryAfter == o.delay
              && AllowStep(limit, window, old(clients), key, now, clients)
    {
      var key := Normalize(caller);
      NormalForm(caller);
      if key in clients && now - clients[key].started >= 0 && now - clients[key].started < window {
        var state := clients[key];
        if state.count >= limit {
          assert clients == clients[key := state];
          return false, window - (now - state.started);
        }
        state := state.(count := state.count + 1);
        clients := clients[key := state];
        return true, 0;
      }
      clients := clients[key := Track(now, 1)];
      if |clients| > MAX_TRACKED {
        Evict(now);
      }
      return true, 0;
    }

    /** The pass over an overfull table. */
    method Evict(now: int)
      requires Valid() && |clients| > MAX_TRACKED
      modifies this`clients
      ensures Valid() && Trimmed(old(clients), clients, window, now)
    {
      ghost var live := Live(clients, window, now);
      var oldestKey := DropExpired(now);
      if |clients| > MAX_TRACKED && oldestKey != "" {
        clients := clients - {oldestKey};
      }
      ghost var rest := clients;
      while |clients| > MAX_TRACKED
        invariant Within(clients, rest)
        invariant |rest| > MAX_TRACKED ==> |clients| >= MAX_TRACKED
        invariant |rest| <= MAX_TRACKED ==> clients == rest
        decreases |clients|
      {
        var client :| client in clients;
        clients := clients - {client};
      }
    }

    /** Removes the expired entries and finds an oldest live one. */
    method DropExpired(now: int) returns (oldestKey: string)
      requires Valid()
      modifies this`clients
      ensures clients == Live(old(clients), window, now)
      ensures if clients == map[] then oldestKey == "" else Oldest(clients, oldestKey)
    {
      oldestKey := "";
      var oldest := now;
      ghost var all := clients;
      var todo := clients.Keys;
      while todo != {}
        invariant todo <= all.Keys
        invariant forall k :: k in clients <==> k in all && (k in todo || now - all[k].started < window)
        invariant Within(clients, all)
        invariant oldestKey == "" ==> forall k | k in clients :: k in todo
        invariant oldestKey != "" ==> oldestKey in clients && oldestKey !in todo && clients[oldestKey].started == oldest
        invariant oldestKey != "" ==> forall k | k in clients && k !in todo :: oldest <= clients[k].started
        decreases |todo|
      {
        var client :| client in todo;
        todo := todo - {client};
        var state := clients[client];
        if now - state.started >= window {
          clients := clients - {client};
          continue;
        }
        if oldestKey == "" || state.started < oldest {
          oldestKey := client;
          oldest := state.started;
        }
      }
      assert clients == Live(all, window, now);
    }
  }
}
