/** The failed-login throttle (app/session.py, `LoginLimiter`) and the handler that uses it (app/auth_api.py,
    `login`). */
module LoginLimiter {
  import opened Options

  // ----- the specification: an unbounded log of failures -----

  ghost predicate Sorted(log: seq<real>) { forall i, j :: 0 <= i < j < |log| ==> log[i] <= log[j] }

  /** The failures that still count at `now`. */
  function Live(log: seq<real>, window: real, now: real): seq<real> {
    if log == [] then []
    else if now - log[0] < window then [log[0]] + Live(log[1..], window, now)
    else Live(log[1..], window, now)
  }

  lemma {:induction false} LiveOfLive(log: seq<real>, window: real, before: real, now: real)
    requires before <= now
    ensures Live(Live(log, window, before), window, now) == Live(log, window, now)
  {
    if log != [] {
      LiveOfLive(log[1..], window, before, now);
      if before - log[0] < window {
        var rest := Live(log[1..], window, before);
        assert ([log[0]] + rest)[1..] == rest;
      }
    }
  }

  lemma {:induction false} LiveAppend(log: seq<real>, t: real, window: real, now: real)
    ensures Live(log + [t], window, now) == Live(log, window, now) + (if now - t < window then [t] else [])
  {
    if log == [] {
      assert log + [t] == [t] && [t][1..] == [];
    } else {
      assert (log + [t])[1..] == log[1..] + [t];
      LiveAppend(log[1..], t, window, now);
    }
  }

  lemma {:induction false} LiveElements(log: seq<real>, window: real, now: real)
    requires Sorted(log)
    ensures Sorted(Live(log, window, now)) && |Live(log, window, now)| <= |log|
    ensures forall i :: 0 <= i < |Live(log, window, now)| ==>
      now - Live(log, window, now)[i] < window && Live(log, window, now)[i] in log
  {
    if log != [] {
      LiveElements(log[1..], window, now);
      var rest := Live(log[1..], window, now);
      forall i | 0 <= i < |rest| ensures log[0] <= rest[i] {
        var j :| 0 <= j < |log[1..]| && log[1..][j] == rest[i];
        assert log[j + 1] == rest[i];
      }
    }
  }

  /** In a sorted log, an entry that still counts is followed by entries that all still count. */
  lemma {:induction false} LiveCount(log: seq<real>, window: real, now: real, i: nat)
    requires Sorted(log) && i < |log| && now - log[i] < window
    ensures |Live(log, window, now)| >= |log| - i
  {
    if i > 0 {
      LiveCount(log[1..], window, now, i - 1);
    } else if |log| > 1 {
      LiveCount(log[1..], window, now, 0);
    }
  }

  /** Any `max + 1` consecutive failures span at least the window. */
  ghost predicate Spaced(log: seq<real>, max: nat, window: real) {
    forall i :: 0 <= i && i + max < |log| ==> log[i + max] - log[i] >= window
  }

  /** A failure recorded while fewer than `max` still counted keeps the log spaced. */
  lemma GuardKeepsSpaced(log: seq<real>, max: nat, window: real, checked: real, now: real)
    requires Sorted(log) && Spaced(log, max, window) && checked <= now
    requires |Live(log, window, checked)| < max
    ensures Spaced(log + [now], max, window)
  {
    var i := |log| - max;
    if i >= 0 && checked - log[i] < window {
      LiveCount(log, window, checked, i);
      assert false;
    }
  }

  /** How many failures fall into [lo, hi). */
  function CountIn(log: seq<real>, lo: real, hi: real): nat {
    if log == [] then 0 else (if lo <= log[0] < hi then 1 else 0) + CountIn(log[1..], lo, hi)
  }

  lemma {:induction false} CountedAreConsecutive(log: seq<real>, lo: real, hi: real) returns (i: nat)
    requires Sorted(log) && CountIn(log, lo, hi) > 0
    ensures i + CountIn(log, lo, hi) <= |log|
    ensures lo <= log[i] && log[i + CountIn(log, lo, hi) - 1] < hi
  {
    if lo <= log[0] < hi {
      i := 0;
      if CountIn(log[1..], lo, hi) > 0 {
        var j := CountedAreConsecutive(log[1..], lo, hi);
      }
    } else {
      var j := CountedAreConsecutive(log[1..], lo, hi);
      i := j + 1;
    }
  }

  /** Every half-open window of that length, wherever it starts, holds at most `max` failures. */
  lemma AnyWindow(log: seq<real>, max: nat, window: real, from: real)
    requires Sorted(log) && Spaced(log, max, window)
    ensures CountIn(log, from, from + window) <= max
  {
    var n := CountIn(log, from, from + window);
    if n > 0 {
      var i := CountedAreConsecutive(log, from, from + window);
      if i + max < |log| {
        assert log[i + max] - log[i] >= window;
        assert log[i + n - 1] < log[i + max];
      }
    }
  }

  // ----- the limiter -----

  type Times = map<string, seq<real>>

  ghost function Of(m: Times, client: string): seq<real> { if client in m then m[client] else [] }

  /** A table entry is as good as the log for every question that can still be asked. */
  ghost predicate Agree(kept: seq<real>, log: seq<real>, window: real, clock: real) {
    forall now :: now >= clock ==> Live(kept, window, now) == Live(log, window, now)
  }

  lemma AgreeLive(kept: seq<real>, log: seq<real>, window: real, clock: real, now: real)
    requires Agree(kept, log, window, clock) && now >= clock
    ensures Agree(Live(kept, window, now), log, window, now)
  {
    forall later | later >= now ensures Live(Live(kept, window, now), window, later) == Live(log, window, later) {
      LiveOfLive(kept, window, now, later);
    }
  }

  lemma AgreeAppend(kept: seq<real>, log: seq<real>, t: real, window: real, clock: real)
    requires Agree(kept, log, window, clock)
    ensures Agree(kept + [t], log + [t], window, clock)
  {
    forall now | now >= clock ensures Live(kept + [t], window, now) == Live(log + [t], window, now) {
      LiveAppend(kept, t, window, now);
      LiveAppend(log, t, window, now);
    }
  }

  /** Sorted, and nothing later than `clock`. */
  ghost predicate Past(times: seq<real>, clock: real) {
    Sorted(times) && forall i :: 0 <= i < |times| ==> times[i] <= clock
  }

  ghost predicate Consistent(failures: Times, log: Times, window: real, clock: real) {
    && (forall c :: c in failures ==> failures[c] != [] && Past(failures[c], clock))
    && (forall c :: c in log ==> Past(log[c], clock))
    && (forall c :: Agree(Of(failures, c), Of(log, c), window, clock))
  }

  function Put(m: Times, client: string, times: seq<real>): Times {
    if times == [] then m - {client} else m[client := times]
  }

  lemma RecentKeeps(failures: Times, log: Times, window: real, clock: real, client: string, now: real)
    requires Consistent(failures, log, window, clock) && now >= clock
    ensures Live(Of(failures, client), window, now) == Live(Of(log, client), window, now)
    ensures Consistent(Put(failures, client, Live(Of(failures, client), window, now)), log, window, now)
  {
    var recent := Live(Of(failures, client), window, now);
    var failures' := Put(failures, client, recent);
    assert Agree(Of(failures, client), Of(log, client), window, clock);
    LiveElements(Of(failures, client), window, now);
    forall c ensures Agree(Of(failures', c), Of(log, c), window, now) {
      assert Agree(Of(failures, c), Of(log, c), window, clock);
      if c == client { AgreeLive(Of(failures, c), Of(log, c), window, clock, now); }
    }
  }

  lemma AppendKeeps(failures: Times, log: Times, window: real, now: real, client: string)
    requires Consistent(failures, log, window, now)
    ensures Consistent(failures[client := Of(failures, client) + [now]],
                       log[client := Of(log, client) + [now]], window, now)
  {
    var failures' := failures[client := Of(failures, client) + [now]];
    var log' := log[client := Of(log, client) + [now]];
    forall c ensures Agree(Of(failures', c), Of(log', c), window, now) {
      assert Agree(Of(failures, c), Of(log, c), window, now);
      if c == client { AgreeAppend(Of(failures, c), Of(log, c), now, window, now); }
    }
  }

  lemma ForgetKeeps(failures: Times, log: Times, window: real, clock: real, client: string)
    requires Consistent(failures, log, window, clock)
    ensures Consistent(failures - {client}, log - {client}, window, clock)
  {
    forall c ensures Agree(Of(failures - {client}, c), Of(log - {client}, c), window, clock) {
      assert Agree(Of(failures, c), Of(log, c), window, clock);
      assert c != client ==> Of(failures - {client}, c) == Of(failures, c) && Of(log - {client}, c) == Of(log, c);
    }
  }

  function Without(m: Times, client: Option<string>): Times {
    if client.Some? then m - {client.value} else m
  }

  /** Nobody is evicted when there is room; otherwise the client with the oldest last failure is. */
  ghost predicate IsEvicted(failures: Times, client: string, maxClients: nat, evicted: Option<string>) {
    if client in failures || |failures| < maxClients then evicted.None?
    else
      && evicted.Some? && evicted.value in failures && evicted.value != client
      && forall c :: c in failures ==> Last(failures[evicted.value]) <= Last(failures[c])
  }

  lemma RecordKeeps(failures: Times, log: Times, window: real, now: real, client: string, evicted: Option<string>)
    requires Consistent(failures, log, window, now) && evicted != Some(client)
    ensures Consistent(Without(failures, evicted)[client := Of(failures, client) + [now]],
                       Without(log, evicted)[client := Of(log, client) + [now]], window, now)
  {
    var failures', log' := Without(failures, evicted), Without(log, evicted);
    if evicted.Some? { ForgetKeeps(failures, log, window, now, evicted.value); }
    AppendKeeps(failures', log', window, now, client);
    assert Of(failures', client) == Of(failures, client) && Of(log', client) == Of(log, client);
  }

  lemma AddedSize(m: Times, client: string, times: seq<real>, max: nat)
    requires |m| <= max && (client in m || |m| < max)
    ensures |m[client := times]| <= max
  {
    assert m[client := times].Keys == m.Keys + {client};
  }

  lemma SmallerWithout(m: Times, client: string)
    ensures |m - {client}| == |m| - (if client in m then 1 else 0)
  {
    assert (m - {client}).Keys == m.Keys - {client};
  }

  class LoginLimiter {
    const maxFailures: nat
    const window: real
    const maxClients: nat
    var failures: Times

    ghost var log: Times    // every failure since the client's last reset or eviction
    ghost var clock: real   // the latest time anyone has passed in

    constructor (maxFailures: nat := 10, window: real := 300.0, maxClients: nat := 10_000)
      ensures Valid() && Throttled() && failures == map[] && log == map[]
      ensures this.maxFailures == maxFailures && this.window == window && this.maxClients == maxClients
    {
      this.maxFailures, this.window, this.maxClients := maxFailures, window, maxClients;
      failures, log, clock := map[], map[], 0.0;
    }

    /** The table is bounded, its lists are non-empty and sorted, and it agrees with the log. */
    ghost predicate Valid()
      reads this
    {
      |failures| <= maxClients && Consistent(failures, log, window, clock)
    }

    /** What the login handler adds: only guarded failures have been recorded. */
    ghost predicate Throttled()
      reads this
    {
      && (forall c :: c in log ==> Spaced(log[c], maxFailures, window))
      && (forall c :: c in failures ==> |failures[c]| <= maxFailures)
    }

    /** `_recent`: drops the client's expired failures and returns the rest. */
    method Recent(client: string, now: real) returns (recent: seq<real>)
      requires Valid() && now >= clock
      modifies this`failures, this`clock
      ensures Valid() && clock == now
      ensures recent == Live(Of(log, client), window, now)
      ensures failures == Put(old(failures), client, recent) && |recent| <= |Of(old(failures), client)|
    {
      RecentKeeps(failures, log, window, clock, client, now);
      LiveElements(Of(failures, client), window, now);
      recent := Live(if client in failures then failures[client] else [], window, now);
      if recent != [] {
        assert |failures[client := recent]| == |failures|;
        failures := failures[client := recent];
      } else {
        assert |failures - {client}| <= |failures|;
        failures := failures - {client};
      }
      clock := now;
    }

    /** The answer an unbounded log would give. */
    method Blocked(client: string, now: real) returns (b: bool)
      requires Valid() && now >= clock
      modifies this`failures, this`clock
      ensures Valid() && clock == now && (old(Throttled()) ==> Throttled())
      ensures b <==> |Live(Of(log, client), window, now)| >= maxFailures
    {
      var recent := Recent(client, now);
      b := |recent| >= maxFailures;
    }

    /** Bounds the table: a new client in a full table evicts the client whose last failure is oldest; with
        room for no client at all there is nobody to evict and `min` raises (`ok` is false). */
    method MakeRoom(client: string) returns (ok: bool, evicted: Option<string>)
      requires |failures| <= maxClients && forall c :: c in failures ==> failures[c] != []
      modifies this`failures
      ensures client in failures || |failures| < maxClients <==> ok
      ensures |failures| <= maxClients && failures == Without(old(failures), evicted)
      ensures ok ==> IsEvicted(old(failures), client, maxClients, evicted)
      ensures !ok ==> evicted.None? && maxClients == 0
    {
      evicted := None;
      if client !in failures && |failures| >= maxClients {
        if failures == map[] { return false, None; }
        var oldest := Oldest(failures);
        SmallerWithout(failures, oldest);
        evicted := Some(oldest);
        failures := failures - {oldest};
      }
      ok := true;
    }

    method RecordFailure(client: string, now: real) returns (ok: bool, evicted: Option<string>)
      requires Valid() && now >= clock
      modifies this`failures, this`log, this`clock
      ensures Valid() && clock == now && (maxClients > 0 ==> ok)
      ensures var live := Live(Of(old(log), client), window, now);
        var before := Put(old(failures), client, live);
        && |live| <= |Of(old(failures), client)|
        && (ok ==> IsEvicted(before, client, maxClients, evicted))
        && failures == (if ok then Without(before, evicted)[client := live + [now]] else before)
        && log == (if ok then Without(old(log), evicted)[client := Of(old(log), client) + [now]] else old(log))
    {
      var recent := Recent(client, now);
      ghost var before := failures;
      ok, evicted := MakeRoom(client);
      if ok {
        RecordKeeps(before, log, window, now, client, evicted);
        AddedSize(failures, client, recent + [now], maxClients);
        failures := failures[client := recent + [now]];
        log := Without(log, evicted)[client := Of(log, client) + [now]];
      }
    }

    method Reset(client: string)
      requires Valid()
      modifies this`failures, this`log
      ensures Valid() && (old(Throttled()) ==> Throttled())
      ensures failures == old(failures) - {client} && log == old(log) - {client}
    {
      ForgetKeeps(failures, log, window, clock, client);
      SmallerWithout(failures, client);
      failures, log := failures - {client}, log - {client};
    }
  }

  function Last(times: seq<real>): real { if times == [] then 0.0 else times[|times| - 1] }

  /** `min(failures, key=last failure)`; every list read has a last element. */
  method Oldest(failures: Times) returns (oldest: string)
    requires failures != map[] && forall c :: c in failures ==> failures[c] != []
    ensures oldest in failures
    ensures forall c :: c in failures ==> Last(failures[oldest]) <= Last(failures[c])
  {
    var todo := failures.Keys;
    assert todo != {};
    oldest :| oldest in failures;
    while todo != {}
      invariant todo <= failures.Keys && oldest in failures
      invariant forall c :: c in failures && c !in todo ==> Last(failures[oldest]) <= Last(failures[c])
    {
      var c :| c in todo;
      todo := todo - {c};
      if Last(failures[c]) < Last(failures[oldest]) { oldest := c; }
    }
  }

  // ----- the login handler -----

  datatype Response = LoggedIn | Denied | TooMany | ServerError

  /** POST /v1/auth/login. A valid key always gets in and clears the client; a wrong one is recorded only while
      the client is not blocked. The two clock reads of a denied attempt are `checked` and `now`. */
  method Login(limiter: LoginLimiter, client: string, validKey: bool, checked: real, now: real) returns (r: Response)
    requires limiter.Valid() && limiter.Throttled() && limiter.clock <= checked <= now
    modifies limiter
    ensures limiter.Valid() && limiter.Throttled()
    ensures r == LoggedIn <==> validKey
    ensures validKey ==> limiter.log == old(limiter.log) - {client}
    ensures !validKey ==>
      (r == TooMany <==> |Live(Of(old(limiter.log), client), limiter.window, checked)| >= limiter.maxFailures)
    ensures r == Denied ==> Of(limiter.log, client) == Of(old(limiter.log), client) + [now]
    ensures r == TooMany || r == ServerError ==> limiter.log == old(limiter.log)
    ensures !validKey && r != TooMany ==> (r == ServerError <==> limiter.maxClients == 0)
  {
    if validKey {
      limiter.Reset(client);
      return LoggedIn;
    }
    var blocked := limiter.Blocked(client, checked);
    if blocked { return TooMany; }
    ghost var before := Of(limiter.log, client);
    GuardedRecord(before, limiter.maxFailures, limiter.window, checked, now);
    var ok, evicted := limiter.RecordFailure(client, now);
    return if ok then Denied else ServerError;
  }

  lemma GuardedRecord(log: seq<real>, max: nat, window: real, checked: real, now: real)
    requires Sorted(log) && Spaced(log, max, window) && checked <= now && |Live(log, window, checked)| < max
    ensures Spaced(log + [now], max, window) && |Live(log, window, now)| < max
  {
    GuardKeepsSpaced(log, max, window, checked, now);
    LiveOfLive(log, window, checked, now);
    LiveShrinks(Live(log, window, checked), window, now);
  }

  lemma {:induction false} LiveShrinks(log: seq<real>, window: real, now: real)
    ensures |Live(log, window, now)| <= |log|
  {
    if log != [] { LiveShrinks(log[1..], window, now); }
  }

  /** In every reachable state of a throttled limiter, no window of that length holds more than `maxFailures`
      failures of any client since its last reset or eviction. */
  lemma ThrottleHolds(limiter: LoginLimiter, client: string, from: real)
    requires limiter.Valid() && limiter.Throttled()
    ensures CountIn(Of(limiter.log, client), from, from + limiter.window) <= limiter.maxFailures
  {
    if client in limiter.log {
      AnyWindow(limiter.log[client], limiter.maxFailures, limiter.window, from);
    }
  }
}
