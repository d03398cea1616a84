/**
 Counting failures over a sliding window (`FailureCounter`), and the two limits made of it
 (`AuthFailureThrottle`, `AuthorizeRateLimit`).

 The table is pruned as it is counted and swept when it has grown; the history is everything ever
 recorded. Times are ticks of the monotonic clock.
 */
module RateLimits {
  import opened Clocks
  import opened Wrappers

  const SWEEP_AT := 1024

  // --- Times within a window -------------------------------------------------------------------------

  /** The times that still count. */
  function Recent(times: seq<nat>, now: nat, window: nat): seq<nat> {
    if times == [] then []
    else
      var init, t := times[..|times| - 1], times[|times| - 1];
      Recent(init, now, window) + if now - t < window then [t] else []
  }

  /** A time is recent for less than the window, each as often as it is there. */
  lemma {:induction false} RecentExactly(times: seq<nat>, now: nat, window: nat, t: nat)
    ensures multiset(Recent(times, now, window))[t] == if now < t + window then multiset(times)[t] else 0
  {
    if times != [] {
      var init := times[..|times| - 1];
      assert times == init + [times[|times| - 1]];
      RecentExactly(init, now, window, t);
    }
  }

  lemma {:induction false} RecentOfConcat(a: seq<nat>, b: seq<nat>, now: nat, window: nat)
    ensures Recent(a + b, now, window) == Recent(a, now, window) + Recent(b, now, window)
  {
    if b == [] {
      assert a + b == a;
    } else {
      assert (a + b)[..|a + b| - 1] == a + b[..|b| - 1];
      RecentOfConcat(a, b[..|b| - 1], now, window);
    }
  }

  /** What was pruned at an earlier time does not count later. */
  lemma {:induction false} PruningKeepsRecent(times: seq<nat>, earlier: nat, now: nat, window: nat)
    requires earlier <= now
    ensures Recent(Recent(times, earlier, window), now, window) == Recent(times, now, window)
  {
    if times != [] {
      var init, t := times[..|times| - 1], times[|times| - 1];
      PruningKeepsRecent(init, earlier, now, window);
      var last := if earlier - t < window then [t] else [];
      RecentOfConcat(Recent(init, earlier, window), last, now, window);
      assert [t][..0] == [];
    }
  }

  // --- History ---------------------------------------------------------------------------------------

  datatype Event<K> = Event(key: K, time: nat)

  /** Every time ever recorded under a key. */
  function TimesOf<K(==)>(history: seq<Event<K>>, key: K): seq<nat> {
    if history == [] then []
    else
      var e := history[|history| - 1];
      TimesOf(history[..|history| - 1], key) + if e.key == key then [e.time] else []
  }

  /** The events of a key within the window, out of all there ever were. */
  function Counted<K(==)>(history: seq<Event<K>>, key: K, now: nat, window: nat): nat {
    |Recent(TimesOf(history, key), now, window)|
  }

  /** A key's times are those of its events, each as often as it is there. */
  lemma {:induction false} TimesExactly<K>(history: seq<Event<K>>, key: K, t: nat)
    ensures multiset(TimesOf(history, key))[t] == multiset(history)[Event(key, t)]
  {
    if history != [] {
      var init := history[..|history| - 1];
      assert history == init + [history[|history| - 1]];
      TimesExactly(init, key, t);
    }
  }

  lemma {:induction false} TimesOfConcat<K>(a: seq<Event<K>>, b: seq<Event<K>>, key: K)
    ensures TimesOf(a + b, key) == TimesOf(a, key) + TimesOf(b, key)
  {
    if b == [] {
      assert a + b == a;
    } else {
      assert (a + b)[..|a + b| - 1] == a + b[..|b| - 1];
      TimesOfConcat(a, b[..|b| - 1], key);
    }
  }

  function TimesIn<K(==)>(failures: map<K, seq<nat>>, key: K): seq<nat> {
    if key in failures then failures[key] else []
  }

  /** From now on, the table counts as the history does. */
  ghost predicate Agrees<K(!new)>(failures: map<K, seq<nat>>, history: seq<Event<K>>, latest: nat, window: nat) {
    forall key, now :: latest <= now ==>
      Recent(TimesIn(failures, key), now, window) == Recent(TimesOf(history, key), now, window)
  }

  class FailureCounter<K(==, !new)> {
    const window: nat
    var failures: map<K, seq<nat>>
    ghost var history: seq<Event<K>>
    /** No clock was ever read later. */
    ghost var latest: nat

    ghost predicate Valid()
      reads this
    {
      Agrees(failures, history, latest, window)
    }

    constructor (window: nat)
      ensures Valid() && this.window == window && history == [] && latest == 0
    {
      this.window := window;
      failures, history, latest := map[], [], 0;
    }

    /** Answers the times that still count under the key and keeps just those, or no entry where none
        does. */
    method Prune(key: K, now: nat) returns (times: seq<nat>)
      requires Valid() && now <= latest
      modifies `failures
      ensures Valid() && times == Recent(old(TimesIn(failures, key)), now, window)
      ensures failures == if times == [] then old(failures) - {key} else old(failures)[key := times]
    {
      times := Recent(TimesIn(failures, key), now, window);
      forall k, later | latest <= later
        ensures Recent(TimesIn(if times == [] then failures - {key} else failures[key := times], k), later, window)
                == Recent(TimesOf(history, k), later, window)
      {
        if k == key { PruningKeepsRecent(TimesIn(failures, key), now, later, window); }
      }
      failures := if times == [] then failures - {key} else failures[key := times];
    }

    /** Answers how much of the whole history counts under the key at the time the clock is read. */
    method Count(key: K, clock: Clock) returns (n: nat)
      requires Valid() && latest <= clock.now
      modifies this, clock
      ensures Valid() && history == old(history) && old(clock.now) <= clock.now == latest
      ensures n == Counted(history, key, clock.now, window)
    {
      var now := clock.Monotonic();
      latest := now;
      var times := Prune(key, now);
      return |times|;
    }

    /** Adds an event under each key. The time given may be older than one already counted at. */
    method Record(keys: seq<K>, now: nat)
      requires Valid()
      modifies this
      ensures Valid() && latest == if now < old(latest) then old(latest) else now
      ensures history == old(history) + seq(|keys|, i requires 0 <= i < |keys| => Event(keys[i], now))
      ensures |failures| < 1024 || Swept(now)
    {
      if latest < now { latest := now; }
      ghost var events := seq(|keys|, i requires 0 <= i < |keys| => Event(keys[i], now));
      for i := 0 to |keys|
        invariant Valid() && latest == if now < old(latest) then old(latest) else now
        invariant history == old(history) + events[..i]
      {
        var key := keys[i];
        AppendingAgrees(failures, history, latest, window, key, now);
        failures := failures[key := TimesIn(failures, key) + [now]];
        history := history + [Event(key, now)];
        assert events[..i + 1] == events[..i] + [events[i]];
      }
      assert events[..|keys|] == events;
      if |failures| >= SWEEP_AT { Sweep(now); }
    }

    /** Every key has a time, and each of its times still counts. */
    ghost predicate Swept(now: nat)
      reads this
    {
      forall key :: key in failures ==> failures[key] != [] && Recent(failures[key], now, window) == failures[key]
    }

    method Sweep(now: nat)
      requires Valid() && now <= latest
      modifies `failures
      ensures Valid() && Swept(now)
    {
      var rest := failures.Keys;
      while rest != {}
        invariant Valid() && rest <= failures.Keys
        invariant forall key :: key in failures && key !in rest ==>
                    failures[key] != [] && Recent(failures[key], now, window) == failures[key]
        decreases |rest|
      {
        var key :| key in rest;
        PruningKeepsRecent(TimesIn(failures, key), now, now, window);
        var times := Prune(key, now);
        rest := rest - {key};
      }
    }
  }

  lemma AppendingAgrees<K(!new)>(failures: map<K, seq<nat>>, history: seq<Event<K>>, latest: nat, window: nat,
                                 key: K, now: nat)
    requires Agrees(failures, history, latest, window)
    ensures Agrees(failures[key := TimesIn(failures, key) + [now]], history + [Event(key, now)], latest, window)
  {
    var f, h := failures[key := TimesIn(failures, key) + [now]], history + [Event(key, now)];
    assert h[..|h| - 1] == history;
    forall k, later | latest <= later
      ensures Recent(TimesIn(f, k), later, window) == Recent(TimesOf(h, k), later, window)
    {
      assert Recent(TimesIn(failures, k), later, window) == Recent(TimesOf(history, k), later, window);
      if k == key {
        RecentOfConcat(TimesIn(failures, key), [now], later, window);
        RecentOfConcat(TimesOf(history, key), [now], later, window);
      } else {
        assert TimesOf(history, k) + [] == TimesOf(history, k);
      }
    }
  }

  // --- The throttle ------------------------------------------------------------------------------------

  /** Failures of one user from one address, or of any user from it. */
  datatype Peer = Peer(address: string, user: Option<string>)

  /** Every failure is counted twice: for its user, and for its address. */
  ghost predicate InPairs(history: seq<Event<Peer>>) {
    if |history| < 2 then history == []
    else
      var a, b := history[|history| - 2], history[|history| - 1];
      a.key.user.Some? && b == Event(Peer(a.key.address, None), a.time) && InPairs(history[..|history| - 2])
  }

  function Sum(users: seq<string>, history: seq<Event<Peer>>, address: string, now: nat, window: nat): nat {
    if users == [] then 0
    else
      Sum(users[..|users| - 1], history, address, now, window)
      + Counted(history, Peer(address, Some(users[|users| - 1])), now, window)
  }

  ghost predicate Distinct(users: seq<string>) {
    forall i, j :: 0 <= i < j < |users| ==> users[i] != users[j]
  }

  /** Every user who failed from the address is among them. */
  ghost predicate Covers(users: seq<string>, history: seq<Event<Peer>>, address: string) {
    forall e :: e in history && e.key.address == address && e.key.user.Some? ==> e.key.user.value in users
  }

  lemma TimesOfOne(e: Event<Peer>, key: Peer)
    ensures TimesOf([e], key) == if e.key == key then [e.time] else []
  {
    assert [e][..0] == [];
  }

  lemma RecentOfOne(t: nat, now: nat, window: nat)
    ensures Recent([], now, window) == [] && Recent([t], now, window) == if now - t < window then [t] else []
  {
    assert [t][..0] == [];
  }

  lemma CountedGrows(history: seq<Event<Peer>>, e: Event<Peer>, key: Peer, now: nat, window: nat)
    ensures Counted(history + [e], key, now, window)
            == Counted(history, key, now, window) + if e.key == key && now - e.time < window then 1 else 0
  {
    hide TimesOf, Recent;
    TimesOfConcat(history, [e], key);
    TimesOfOne(e, key);
    RecentOfConcat(TimesOf(history, key), TimesOf([e], key), now, window);
    RecentOfOne(e.time, now, window);
  }

  lemma {:induction false} SumGrows(users: seq<string>, history: seq<Event<Peer>>, e: Event<Peer>, address: string,
                                    now: nat, window: nat)
    requires Distinct(users)
    ensures Sum(users, history + [e], address, now, window)
            == Sum(users, history, address, now, window)
               + if e.key.address == address && e.key.user.Some? && e.key.user.value in users && now - e.time < window
                 then 1 else 0
  {
    hide Counted;
    if users != [] {
      var init, last := users[..|users| - 1], users[|users| - 1];
      SumGrows(init, history, e, address, now, window);
      CountedGrows(history, e, Peer(address, Some(last)), now, window);
      assert users == init + [last] && last !in init;
    }
  }

  lemma {:induction false} SumOfNothing(users: seq<string>, address: string, now: nat, window: nat)
    ensures Sum(users, [], address, now, window) == 0
  {
    if users != [] { SumOfNothing(users[..|users| - 1], address, now, window); }
  }

  /** An address's count is the sum of its users'. */
  lemma {:induction false} AddressCountIsTheSum(users: seq<string>, history: seq<Event<Peer>>, address: string,
                                                now: nat, window: nat)
    requires InPairs(history) && Distinct(users) && Covers(users, history, address)
    ensures Counted(history, Peer(address, None), now, window) == Sum(users, history, address, now, window)
  {
    hide Counted, Sum;
    if history == [] {
      SumOfNothing(users, address, now, window);
      NothingCounted(Peer(address, None), now, window);
    } else {
      var n := |history| - 2;
      var init, a, b := history[..n], history[n], history[n + 1];
      AddressCountIsTheSum(users, init, address, now, window);
      assert history == init + [a] + [b];
      assert a in history;
      CountedGrows(init, a, Peer(address, None), now, window);
      CountedGrows(init + [a], b, Peer(address, None), now, window);
      SumGrows(users, init, a, address, now, window);
      SumGrows(users, init + [a], b, address, now, window);
    }
  }

  lemma NothingCounted(key: Peer, now: nat, window: nat)
    ensures Counted([], key, now, window) == 0
  {
  }

  class AuthFailureThrottle {
    const maxFailures: nat
    const maxFailuresPerAddress: nat
    const failures: FailureCounter<Peer>

    ghost predicate Valid()
      reads this, failures
    {
      failures.Valid() && InPairs(failures.history)
    }

    constructor (window: nat := 60, maxFailures: nat := 10, maxFailuresPerAddress: nat := 200)
      ensures Valid() && fresh(failures) && failures.history == [] && failures.window == window
      ensures this.maxFailures == maxFailures && this.maxFailuresPerAddress == maxFailuresPerAddress
    {
      this.maxFailures, this.maxFailuresPerAddress := maxFailures, maxFailuresPerAddress;
      failures := new FailureCounter(window);
    }

    method IsThrottled(address: string, user: string, clock: Clock) returns (throttled: bool)
      requires Valid() && failures.latest <= clock.now
      modifies failures, clock
      ensures Valid() && failures.history == old(failures.history) && old(clock.now) <= clock.now == failures.latest
      ensures throttled ==>
                exists t :: old(clock.now) <= t <= clock.now
                  && (Counted(failures.history, Peer(address, Some(user)), t, failures.window) >= maxFailures
                      || Counted(failures.history, Peer(address, None), t, failures.window) >= maxFailuresPerAddress)
      ensures !throttled ==>
                Counted(failures.history, Peer(address, None), clock.now, failures.window) < maxFailuresPerAddress
                && (exists t :: old(clock.now) <= t <= clock.now
                      && Counted(failures.history, Peer(address, Some(user)), t, failures.window) < maxFailures)
    {
      hide Counted;
      var count := failures.Count(Peer(address, Some(user)), clock);
      if count >= maxFailures { return true; }
      count := failures.Count(Peer(address, None), clock);
      return count >= maxFailuresPerAddress;
    }

    method RecordFailure(address: string, user: string, now: nat)
      requires Valid()
      modifies failures
      ensures Valid()
      ensures failures.history
              == old(failures.history) + [Event(Peer(address, Some(user)), now), Event(Peer(address, None), now)]
    {
      ghost var before := failures.history;
      failures.Record([Peer(address, Some(user)), Peer(address, None)], now);
      assert failures.history[..|before|] == before;
    }
  }

  // --- The limit on sign-ins ------------------------------------------------------------------------------

  /** The times from a moment on for one window. */
  function Within(times: seq<nat>, from: int, window: nat): nat {
    if times == [] then 0
    else
      var t := times[|times| - 1];
      Within(times[..|times| - 1], from, window) + if from <= t < from + window then 1 else 0
  }

  /** No interval as long as the window holds more than so many. */
  ghost predicate Limited(times: seq<nat>, window: nat, limit: nat) {
    forall from :: Within(times, from, window) <= limit
  }

  /** What lies in an interval that has not ended is recent. */
  /** How many of them lie in the window that begins at a moment. */
  lemma {:induction false} WithinExactly(times: seq<nat>, from: int, window: nat)
    ensures Within(times, from, window) == |set i | 0 <= i < |times| && from <= times[i] < from + window|
  {
    if times != [] {
      var n := |times| - 1;
      WithinExactly(times[..n], from, window);
      var before := set i | 0 <= i < n && from <= times[..n][i] < from + window;
      var all := set i | 0 <= i < |times| && from <= times[i] < from + window;
      assert all == before + if from <= times[n] < from + window then {n} else {};
    }
  }

  lemma {:induction false} WithinIsRecent(times: seq<nat>, from: int, now: nat, window: nat)
    requires now < from + window
    ensures Within(times, from, window) <= |Recent(times, now, window)|
  {
    if times != [] { WithinIsRecent(times[..|times| - 1], from, now, window); }
  }

  lemma AdmittingKeepsLimit(times: seq<nat>, counted: nat, admitted: nat, window: nat, limit: nat)
    requires Limited(times, window, limit) && counted <= admitted
    requires |Recent(times, counted, window)| < limit
    ensures Limited(times + [admitted], window, limit)
  {
    var more := times + [admitted];
    assert more[..|more| - 1] == times;
    forall from ensures Within(more, from, window) <= limit {
      assert Within(times, from, window) <= limit;
      if from <= admitted < from + window { WithinIsRecent(times, from, counted, window); }
    }
  }

  /** Once the window has passed, nothing counts any more. */
  lemma {:induction false} QuietAfterTheWindow(times: seq<nat>, now: nat, window: nat)
    requires forall i :: 0 <= i < |times| ==> times[i] + window <= now
    ensures Recent(times, now, window) == []
  {
    if times != [] { QuietAfterTheWindow(times[..|times| - 1], now, window); }
  }

  class AuthorizeRateLimit {
    const maxRequests: nat
    const requests: FailureCounter<string>

    ghost predicate Valid()
      reads this, requests
    {
      requests.Valid() && forall address :: Limited(TimesOf(requests.history, address), requests.window, maxRequests)
    }

    constructor (window: nat := 60, maxRequests: nat := 30)
      ensures Valid() && fresh(requests) && requests.history == []
      ensures requests.window == window && this.maxRequests == maxRequests
    {
      this.maxRequests := maxRequests;
      requests := new FailureCounter(window);
    }

    /** Whether a request is let through: it is counted only then. */
    method Admit(address: string, clock: Clock) returns (admitted: bool)
      requires Valid() && requests.latest <= clock.now
      modifies requests, clock
      ensures Valid() && old(clock.now) <= clock.now == requests.latest
      ensures exists t :: old(clock.now) <= t <= clock.now
                && (admitted <==> Counted(old(requests.history), address, t, requests.window) < maxRequests)
      ensures requests.history
              == old(requests.history) + if admitted then [Event(address, clock.now)] else []
    {
      hide Limited;
      var count := requests.Count(address, clock);
      ghost var before, counted := requests.history, clock.now;
      if count >= maxRequests { return false; }
      var now := clock.Monotonic();
      requests.Record([address], now);
      assert requests.history == before + [Event(address, now)];
      forall other ensures Limited(TimesOf(requests.history, other), requests.window, maxRequests) {
        TimesOfConcat(before, [Event(address, now)], other);
        assert [Event(address, now)][..0] == [];
        if other == address {
          AdmittingKeepsLimit(TimesOf(before, address), counted, now, requests.window, maxRequests);
        } else {
          assert TimesOf(before, other) + [] == TimesOf(before, other);
        }
      }
      return true;
    }
  }
}
