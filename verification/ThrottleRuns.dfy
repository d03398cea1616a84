/**
 The throttle with several requests on their way at a time (`AuthFailureThrottle.__call__`): each is
 counted for its user, then for its address, let through, answered, and recorded where the answer was
 a 401.

 A count is what the whole history says, which is what the counter answers (module RateLimits).
 */
module ThrottleRuns {
  import opened RateLimits
  import opened Wrappers

  datatype Limits = Limits(window: nat, perUser: nat, perAddress: nat)

  /** Where a request is: its user was counted, it was let through, it was answered with a 401, the time
      of that was read, or nothing is left to do. */
  datatype Pc = UserCounted | Inside | Failed | Timed(time: nat) | Over

  datatype Request = Request(address: string, user: string, pc: Pc)

  datatype State = State(history: seq<Event<Peer>>, now: nat, requests: map<nat, Request>)

  datatype Step =
    | CountUser(r: nat, address: string, user: string)
    | CountAddress(r: nat)
    | Answer(r: nat, refused: bool)
    | ReadClock(r: nat)
    | Append(r: nat)
    | Tick(passed: nat)

  predicate Can(s: State, step: Step) {
    match step
    case CountUser(r, _, _) => r !in s.requests
    case CountAddress(r) => r in s.requests && s.requests[r].pc.UserCounted?
    case Answer(r, _) => r in s.requests && s.requests[r].pc.Inside?
    case ReadClock(r) => r in s.requests && s.requests[r].pc.Failed?
    case Append(r) => r in s.requests && s.requests[r].pc.Timed?
    case Tick(_) => true
  }

  /** Both events of a failure. */
  function Failure(address: string, user: string, time: nat): seq<Event<Peer>> {
    [Event(Peer(address, Some(user)), time), Event(Peer(address, None), time)]
  }

  function Turn(s: State, r: nat, pc: Pc): State
    requires r in s.requests
  {
    s.(requests := s.requests[r := s.requests[r].(pc := pc)])
  }

  function Do(s: State, l: Limits, step: Step): State
    requires Can(s, step)
  {
    match step
    case CountUser(r, address, user) =>
      var passes := Counted(s.history, Peer(address, Some(user)), s.now, l.window) < l.perUser;
      s.(requests := s.requests[r := Request(address, user, if passes then UserCounted else Over)])
    case CountAddress(r) =>
      var passes := Counted(s.history, Peer(s.requests[r].address, None), s.now, l.window) < l.perAddress;
      Turn(s, r, if passes then Inside else Over)
    case Answer(r, refused) => Turn(s, r, if refused then Failed else Over)
    case ReadClock(r) => Turn(s, r, Timed(s.now))
    case Append(r) =>
      var q := s.requests[r];
      Turn(s, r, Over).(history := s.history + Failure(q.address, q.user, q.pc.time))
    case Tick(passed) => s.(now := s.now + passed)
  }

  ghost predicate Possible(s: State, l: Limits, steps: seq<Step>)
    decreases |steps|
  {
    steps == [] || (Can(s, steps[0]) && Possible(Do(s, l, steps[0]), l, steps[1..]))
  }

  ghost function After(s: State, l: Limits, steps: seq<Step>): State
    requires Possible(s, l, steps)
    decreases |steps|
  {
    if steps == [] then s else After(Do(s, l, steps[0]), l, steps[1..])
  }

  const Initial: State := State([], 0, map[])

  // --- Requests in flight -------------------------------------------------------------------------------

  /** The request passed the count of the key and may still be recorded under it. */
  predicate InFlight(q: Request, key: Peer) {
    q.address == key.address
    && match key.user
       case Some(user) => q.user == user && !q.pc.Over?
       case None => !q.pc.Over? && !q.pc.UserCounted?
  }

  function Flying(s: State, key: Peer): set<nat> {
    set r | r in s.requests && InFlight(s.requests[r], key)
  }

  ghost predicate AtMost(s: State, l: Limits, steps: seq<Step>, key: Peer, n: nat)
    requires Possible(s, l, steps)
    decreases |steps|
  {
    |Flying(s, key)| <= n && (steps == [] || AtMost(Do(s, l, steps[0]), l, steps[1..], key, n))
  }

  /** The request may still be recorded in the window that begins at a moment. */
  predicate Threatens(q: Request, key: Peer, now: nat, from: int, window: nat) {
    InFlight(q, key) && if q.pc.Timed? then from <= q.pc.time < from + window else now < from + window
  }

  function Threats(s: State, l: Limits, key: Peer, from: int): set<nat> {
    set r | r in s.requests && Threatens(s.requests[r], key, s.now, from, l.window)
  }

  function Ceiling(l: Limits, key: Peer): nat {
    if key.user.Some? then l.perUser else l.perAddress
  }

  /** One less than the ceiling, and as many as are on their way; nothing where nothing is let through. */
  function Most(ceiling: nat, inFlight: nat): nat {
    if ceiling == 0 then 0 else ceiling - 1 + inFlight
  }

  /** The failures recorded in a window and those that may still be. */
  ghost predicate Bounded(s: State, l: Limits, key: Peer, n: nat, from: int) {
    Within(TimesOf(s.history, key), from, l.window) + |Threats(s, l, key, from)| <= Most(Ceiling(l, key), n)
  }

  lemma SubsetSize(a: set<nat>, b: set<nat>)
    requires a <= b
    ensures |a| <= |b|
  {
    assert b == a + (b - a);
  }

  /** The steps by which a key lets a request through. */
  predicate Passes(s: State, l: Limits, step: Step, key: Peer)
    requires Can(s, step)
  {
    match step
    case CountUser(r, address, user) =>
      key == Peer(address, Some(user)) && Counted(s.history, key, s.now, l.window) < l.perUser
    case CountAddress(r) =>
      key == Peer(s.requests[r].address, None) && Counted(s.history, key, s.now, l.window) < l.perAddress
    case _ => false
  }

  lemma PassingStaysBounded(s: State, l: Limits, step: Step, key: Peer, n: nat, from: int)
    requires Can(s, step) && Passes(s, l, step, key) && Bounded(s, l, key, n, from)
    requires |Flying(Do(s, l, step), key)| <= n
    ensures Bounded(Do(s, l, step), l, key, n, from)
  {
    var t := Do(s, l, step);
    if s.now < from + l.window {
      WithinIsRecent(TimesOf(s.history, key), from, s.now, l.window);
      SubsetSize(Threats(t, l, key, from), Flying(t, key));
    } else {
      SubsetSize(Threats(t, l, key, from), Threats(s, l, key, from));
    }
  }

  lemma WithinGrows(history: seq<Event<Peer>>, e: Event<Peer>, key: Peer, from: int, window: nat)
    ensures Within(TimesOf(history + [e], key), from, window)
            == Within(TimesOf(history, key), from, window)
               + if e.key == key && from <= e.time < from + window then 1 else 0
  {
    TimesOfConcat(history, [e], key);
    TimesOfOne(e, key);
    hide TimesOf;
    var times := TimesOf(history, key);
    if e.key == key {
      assert (times + [e.time])[..|times|] == times;
    } else {
      assert times + [] == times;
    }
  }

  lemma FailureGrows(history: seq<Event<Peer>>, q: Request, time: nat, key: Peer, from: int, window: nat)
    ensures Within(TimesOf(history + Failure(q.address, q.user, time), key), from, window)
            == Within(TimesOf(history, key), from, window)
               + if InFlight(q.(pc := Timed(time)), key) && from <= time < from + window then 1 else 0
  {
    hide TimesOf, Within;
    var a, b := Event(Peer(q.address, Some(q.user)), time), Event(Peer(q.address, None), time);
    WithinGrows(history, a, key, from, window);
    WithinGrows(history + [a], b, key, from, window);
    assert history + Failure(q.address, q.user, time) == history + [a] + [b];
  }

  lemma AppendingStaysBounded(s: State, l: Limits, r: nat, key: Peer, n: nat, from: int)
    requires Can(s, Append(r)) && Bounded(s, l, key, n, from)
    ensures Bounded(Do(s, l, Append(r)), l, key, n, from)
  {
    hide Within, TimesOf, Most;
    var t, q := Do(s, l, Append(r)), s.requests[r];
    FailureGrows(s.history, q, q.pc.time, key, from, l.window);
    assert q.(pc := Timed(q.pc.time)) == q;
    var before, after := Threats(s, l, key, from), Threats(t, l, key, from);
    assert after == before - {r};
  }

  lemma OtherStepStaysBounded(s: State, l: Limits, step: Step, key: Peer, n: nat, from: int)
    requires Can(s, step) && Bounded(s, l, key, n, from) && !Passes(s, l, step, key) && !step.Append?
    ensures Bounded(Do(s, l, step), l, key, n, from)
  {
    hide Within, TimesOf, Most, Counted;
    SubsetSize(Threats(Do(s, l, step), l, key, from), Threats(s, l, key, from));
  }

  lemma StepStaysBounded(s: State, l: Limits, step: Step, key: Peer, n: nat, from: int)
    requires Can(s, step) && Bounded(s, l, key, n, from) && |Flying(Do(s, l, step), key)| <= n
    ensures Bounded(Do(s, l, step), l, key, n, from)
  {
    hide Bounded, Do, Flying;
    if Passes(s, l, step, key) {
      PassingStaysBounded(s, l, step, key, n, from);
    } else if step.Append? {
      AppendingStaysBounded(s, l, step.r, key, n, from);
    } else {
      OtherStepStaysBounded(s, l, step, key, n, from);
    }
  }

  lemma {:induction false} RunStaysBounded(s: State, l: Limits, steps: seq<Step>, key: Peer, n: nat, from: int)
    requires Possible(s, l, steps) && AtMost(s, l, steps, key, n) && Bounded(s, l, key, n, from)
    ensures Bounded(After(s, l, steps), l, key, n, from)
    decreases |steps|
  {
    hide Bounded, Do, Can, Flying;
    if steps != [] {
      var t := Do(s, l, steps[0]);
      assert |Flying(t, key)| <= n;
      StepStaysBounded(s, l, steps[0], key, n, from);
      RunStaysBounded(t, l, steps[1..], key, n, from);
    }
  }

  /** With at most so many requests on their way for a user from an address, or from an address for any
      user, no window of any run has more of their failures than one less than the ceiling and those. */
  lemma OvershootIsInFlight(l: Limits, steps: seq<Step>, key: Peer, n: nat)
    requires Possible(Initial, l, steps) && AtMost(Initial, l, steps, key, n)
    ensures var ceiling := if key.user.Some? then l.perUser else l.perAddress;
            Limited(TimesOf(After(Initial, l, steps).history, key), l.window,
                    if ceiling == 0 then 0 else ceiling - 1 + n)
  {
    hide Possible, After, AtMost;
    forall from
      ensures Within(TimesOf(After(Initial, l, steps).history, key), from, l.window) <= Most(Ceiling(l, key), n)
    {
      assert Threats(Initial, l, key, from) == {};
      RunStaysBounded(Initial, l, steps, key, n, from);
    }
  }

  // --- What is recorded -----------------------------------------------------------------------------------

  /** How many requests of a run were answered with a 401. */
  function Refusals(steps: seq<Step>): nat {
    if steps == [] then 0
    else (if steps[0].Answer? && steps[0].refused then 1 else 0) + Refusals(steps[1..])
  }

  /** The requests whose failure is still to be recorded. */
  function Pending(s: State): set<nat> {
    set r | r in s.requests && (s.requests[r].pc.Failed? || s.requests[r].pc.Timed?)
  }

  lemma StepRecords(s: State, l: Limits, step: Step)
    requires Can(s, step)
    ensures var t := Do(s, l, step);
            |t.history| + 2 * |Pending(t)|
            == |s.history| + 2 * |Pending(s)| + if step.Answer? && step.refused then 2 else 0
  {
    hide Counted;
    var t := Do(s, l, step);
    if step.Answer? && step.refused {
      assert Pending(t) == Pending(s) + {step.r};
    } else if step.Append? {
      assert Pending(t) == Pending(s) - {step.r};
    } else {
      assert Pending(t) == Pending(s);
    }
  }

  lemma {:induction false} RunRecords(s: State, l: Limits, steps: seq<Step>)
    requires Possible(s, l, steps)
    ensures |After(s, l, steps).history| + 2 * |Pending(After(s, l, steps))|
            == |s.history| + 2 * |Pending(s)| + 2 * Refusals(steps)
    decreases |steps|
  {
    hide Do, Can, Pending;
    if steps != [] {
      StepRecords(s, l, steps[0]);
      RunRecords(Do(s, l, steps[0]), l, steps[1..]);
    }
  }

  /** In every run, each request that is answered with a 401 is recorded once, under its user and under
      its address, and no other request is: what is not recorded yet is still on its way. */
  lemma RefusalsAreRecordedOnce(l: Limits, steps: seq<Step>)
    requires Possible(Initial, l, steps)
    ensures |After(Initial, l, steps).history| + 2 * |Pending(After(Initial, l, steps))| == 2 * Refusals(steps)
  {
    hide Possible, After;
    RunRecords(Initial, l, steps);
  }

  // --- Time heals --------------------------------------------------------------------------------------

  /** Nothing is recorded, or on its way, with a time to come. */
  ghost predicate UpToNow(s: State) {
    && (forall e :: e in s.history ==> e.time <= s.now)
    && forall r :: r in s.requests && s.requests[r].pc.Timed? ==> s.requests[r].pc.time <= s.now
  }

  lemma {:induction false} RunIsUpToNow(s: State, l: Limits, steps: seq<Step>)
    requires Possible(s, l, steps) && UpToNow(s)
    ensures UpToNow(After(s, l, steps))
    decreases |steps|
  {
    hide Can, UpToNow;
    if steps != [] {
      StepIsUpToNow(s, l, steps[0]);
      RunIsUpToNow(Do(s, l, steps[0]), l, steps[1..]);
    }
  }

  lemma StepIsUpToNow(s: State, l: Limits, step: Step)
    requires Can(s, step) && UpToNow(s)
    ensures UpToNow(Do(s, l, step))
  {
  }

  lemma {:induction false} TimesAreThere(history: seq<Event<Peer>>, key: Peer, t: nat)
    requires t in TimesOf(history, key)
    ensures exists e :: e in history && e.key == key && e.time == t
  {
    var last := history[|history| - 1];
    assert last in history;
    if t in TimesOf(history[..|history| - 1], key) { TimesAreThere(history[..|history| - 1], key, t); }
  }

  lemma QuietCount(history: seq<Event<Peer>>, key: Peer, now: nat, window: nat)
    requires forall e :: e in history ==> e.time + window <= now
    ensures Counted(history, key, now, window) == 0
  {
    var times := TimesOf(history, key);
    forall i | 0 <= i < |times| ensures times[i] + window <= now { TimesAreThere(history, key, times[i]); }
    QuietAfterTheWindow(times, now, window);
  }

  /** After any run, once a window has passed with nothing recorded, the next request is let in, whoever it is
      from: nobody stays shut out. */
  lemma WindowLetsInAgain(l: Limits, steps: seq<Step>, r: nat, address: string, user: string, passed: nat)
    requires Possible(Initial, l, steps) && r !in After(Initial, l, steps).requests
    requires passed >= l.window && l.perUser >= 1 && l.perAddress >= 1
    ensures var s := After(Initial, l, steps);
            var more := [Tick(passed), CountUser(r, address, user), CountAddress(r)];
            && Possible(s, l, more)
            && After(s, l, more).requests == s.requests[r := Request(address, user, Inside)]
  {
    hide Counted;
    RunIsUpToNow(Initial, l, steps);
    var s := After(Initial, l, steps);
    var a := Do(s, l, Tick(passed));
    QuietCount(s.history, Peer(address, Some(user)), a.now, l.window);
    QuietCount(s.history, Peer(address, None), a.now, l.window);
    var b := Do(a, l, CountUser(r, address, user));
    assert b.requests[r] == Request(address, user, UserCounted);
    var c := Do(b, l, CountAddress(r));
    assert c.requests == s.requests[r := Request(address, user, Inside)];
    assert Possible(b, l, [CountAddress(r)]) && After(b, l, [CountAddress(r)]) == c;
    var rest := [CountUser(r, address, user), CountAddress(r)];
    assert rest[1..] == [CountAddress(r)] && ([Tick(passed)] + rest)[1..] == rest;
    assert Possible(a, l, rest) && After(a, l, rest) == c;
    assert [Tick(passed)] + rest == [Tick(passed), CountUser(r, address, user), CountAddress(r)];
  }

  // --- Runs that get there --------------------------------------------------------------------------------

  lemma {:induction false} Concat(s: State, l: Limits, a: seq<Step>, b: seq<Step>, key: Peer, n: nat)
    requires Possible(s, l, a) && AtMost(s, l, a, key, n)
    requires Possible(After(s, l, a), l, b) && AtMost(After(s, l, a), l, b, key, n)
    ensures Possible(s, l, a + b) && AtMost(s, l, a + b, key, n) && After(s, l, a + b) == After(After(s, l, a), l, b)
    decreases |a|
  {
    hide Do, Can, Flying;
    if a == [] {
      assert a + b == b;
    } else {
      assert (a + b)[1..] == a[1..] + b;
      Concat(Do(s, l, a[0]), l, a[1..], b, key, n);
    }
  }

  lemma OneStep(s: State, l: Limits, step: Step, key: Peer, n: nat)
    requires Can(s, step) && |Flying(s, key)| <= n && |Flying(Do(s, l, step), key)| <= n
    ensures Possible(s, l, [step]) && AtMost(s, l, [step], key, n) && After(s, l, [step]) == Do(s, l, step)
  {
    hide Do, Can, Flying;
    assert [step][1..] == [];
  }

  /** The failures of so many requests, all at the start. */
  function Failures(address: string, name: nat -> string, k: nat): seq<Event<Peer>> {
    if k == 0 then [] else Failures(address, name, k - 1) + Failure(address, name(k - 1), 0)
  }

  /** So many requests have failed, and the next so many were let through. */
  function Stage(address: string, name: nat -> string, k: nat, m: nat): State {
    State(Failures(address, name, k), 0,
          map r: nat | 0 <= r < k + m :: Request(address, name(r), if r < k then Over else Inside))
  }

  function Range(k: nat, m: nat): (range: set<nat>)
    ensures |range| == m && forall r :: r in range <==> k <= r < k + m
  {
    if m == 0 then {} else Range(k, m - 1) + {k + m - 1}
  }

  lemma FewFly(s: State, key: Peer, k: nat, m: nat)
    requires forall r :: r in s.requests && !s.requests[r].pc.Over? ==> k <= r < k + m
    ensures |Flying(s, key)| <= m
  {
    SubsetSize(Flying(s, key), Range(k, m));
  }

  lemma StageFlies(address: string, name: nat -> string, k: nat, m: nat, key: Peer)
    ensures |Flying(Stage(address, name, k, m), key)| <= m
  {
    FewFly(Stage(address, name, k, m), key, k, m);
  }

  /** The counts let the next requests in. */
  ghost predicate Lenient(l: Limits, address: string, name: nat -> string, k: nat, r: nat) {
    && Counted(Failures(address, name, k), Peer(address, Some(name(r))), 0, l.window) < l.perUser
    && Counted(Failures(address, name, k), Peer(address, None), 0, l.window) < l.perAddress
  }

  function Passing(r: nat, address: string, user: string): seq<Step> {
    [CountUser(r, address, user), CountAddress(r)]
  }

  function Failing(r: nat): seq<Step> {
    [Answer(r, true), ReadClock(r), Append(r)]
  }

  lemma PassingLeadsOn(l: Limits, address: string, name: nat -> string, k: nat, m: nat)
    requires Lenient(l, address, name, k, k + m)
    ensures var first, second := CountUser(k + m, address, name(k + m)), CountAddress(k + m);
            && Can(Stage(address, name, k, m), first)
            && var mid := Do(Stage(address, name, k, m), l, first);
               && (forall r :: r in mid.requests && !mid.requests[r].pc.Over? ==> k <= r < k + (m + 1))
               && Can(mid, second) && Do(mid, l, second) == Stage(address, name, k, m + 1)
  {
    hide Counted;
    var s, first, second := Stage(address, name, k, m), CountUser(k + m, address, name(k + m)), CountAddress(k + m);
    assert Do(Do(s, l, first), l, second).requests == Stage(address, name, k, m + 1).requests;
  }

  lemma LetsIn(l: Limits, address: string, name: nat -> string, k: nat, m: nat, key: Peer, n: nat)
    requires Lenient(l, address, name, k, k + m) && m + 1 <= n
    ensures var s, steps := Stage(address, name, k, m), Passing(k + m, address, name(k + m));
            && Possible(s, l, steps) && AtMost(s, l, steps, key, n)
                 && After(s, l, steps) == Stage(address, name, k, m + 1)
  {
    hide Flying, Possible, After, AtMost, Stage, Do, Can, Lenient;
    var s, first, second := Stage(address, name, k, m), CountUser(k + m, address, name(k + m)), CountAddress(k + m);
    PassingLeadsOn(l, address, name, k, m);
    var mid := Do(s, l, first);
    StageFlies(address, name, k, m, key);
    FewFly(mid, key, k, m + 1);
    StageFlies(address, name, k, m + 1, key);
    OneStep(s, l, first, key, n);
    OneStep(mid, l, second, key, n);
    Concat(s, l, [first], [second], key, n);
    assert [first] + [second] == Passing(k + m, address, name(k + m));
  }

  lemma Fails(l: Limits, address: string, name: nat -> string, k: nat, m: nat, key: Peer, n: nat)
    requires 1 <= m <= n
    ensures var s, steps := Stage(address, name, k, m), Failing(k);
            && Possible(s, l, steps) && AtMost(s, l, steps, key, n)
                 && After(s, l, steps) == Stage(address, name, k + 1, m - 1)
  {
    hide Flying, Possible, After, AtMost;
    var s := Stage(address, name, k, m);
    var failed := Do(s, l, Answer(k, true));
    var timed := Do(failed, l, ReadClock(k));
    var over := Do(timed, l, Append(k));
    FewFly(s, key, k, m);
    FewFly(failed, key, k, m);
    FewFly(timed, key, k, m);
    FewFly(over, key, k, m);
    assert over.requests == Stage(address, name, k + 1, m - 1).requests;
    OneStep(s, l, Answer(k, true), key, n);
    OneStep(failed, l, ReadClock(k), key, n);
    OneStep(timed, l, Append(k), key, n);
    Concat(s, l, [Answer(k, true)], [ReadClock(k)], key, n);
    Concat(s, l, [Answer(k, true)] + [ReadClock(k)], [Append(k)], key, n);
    assert [Answer(k, true)] + [ReadClock(k)] + [Append(k)] == Failing(k);
  }

  lemma Nothing(s: State, l: Limits, key: Peer, n: nat)
    requires |Flying(s, key)| <= n
    ensures Possible(s, l, []) && AtMost(s, l, [], key, n) && After(s, l, []) == s
  {
  }

  /** One request after the other fails. */
  lemma {:induction false} OneByOne(l: Limits, address: string, name: nat -> string, k: nat, key: Peer, n: nat)
    returns (steps: seq<Step>)
    requires n >= 1 && forall i :: 0 <= i < k ==> Lenient(l, address, name, i, i)
    ensures var s := Stage(address, name, 0, 0);
            Possible(s, l, steps) && AtMost(s, l, steps, key, n) && After(s, l, steps) == Stage(address, name, k, 0)
  {
    hide Lenient, Stage, Possible, After, AtMost, Passing, Failing, Flying;
    var s := Stage(address, name, 0, 0);
    if k == 0 {
      steps := [];
      StageFlies(address, name, 0, 0, key);
      Nothing(s, l, key, n);
    } else {
      var i := k - 1;
      steps := OneByOne(l, address, name, i, key, n);
      LetsIn(l, address, name, i, 0, key, n);
      Fails(l, address, name, i, 1, key, n);
      Concat(s, l, steps, Passing(i, address, name(i)), key, n);
      Concat(s, l, steps + Passing(i, address, name(i)), Failing(i), key, n);
      steps := steps + Passing(i, address, name(i)) + Failing(i);
    }
  }

  /** As many as may fly are let in before any of them fails. */
  lemma {:induction false} AllLetIn(l: Limits, address: string, name: nat -> string, k: nat, m: nat, key: Peer, n: nat)
    returns (steps: seq<Step>)
    requires m <= n && forall r :: k <= r < k + m ==> Lenient(l, address, name, k, r)
    ensures var s := Stage(address, name, k, 0);
            Possible(s, l, steps) && AtMost(s, l, steps, key, n) && After(s, l, steps) == Stage(address, name, k, m)
  {
    hide Lenient, Stage, Possible, After, AtMost, Passing, Flying;
    var s := Stage(address, name, k, 0);
    if m == 0 {
      steps := [];
      StageFlies(address, name, k, 0, key);
      Nothing(s, l, key, n);
    } else {
      var r := k + m - 1;
      steps := AllLetIn(l, address, name, k, m - 1, key, n);
      LetsIn(l, address, name, k, m - 1, key, n);
      Concat(s, l, steps, Passing(r, address, name(r)), key, n);
      steps := steps + Passing(r, address, name(r));
    }
  }

  lemma {:induction false} AllFail(l: Limits, address: string, name: nat -> string, k: nat, m: nat, key: Peer, n: nat)
    returns (steps: seq<Step>)
    requires m <= n
    ensures var s := Stage(address, name, k, m);
            Possible(s, l, steps) && AtMost(s, l, steps, key, n) && After(s, l, steps) == Stage(address, name, k + m, 0)
    decreases m
  {
    hide Stage, Possible, After, AtMost, Failing, Flying;
    var s := Stage(address, name, k, m);
    if m == 0 {
      steps := [];
      StageFlies(address, name, k, 0, key);
      Nothing(s, l, key, n);
    } else {
      steps := AllFail(l, address, name, k + 1, m - 1, key, n);
      Fails(l, address, name, k, m, key, n);
      Concat(s, l, Failing(k), steps, key, n);
      steps := Failing(k) + steps;
    }
  }

  /** So many failures one by one, and then as many at a time as may be on their way. */
  lemma AllAtTheStart(l: Limits, address: string, name: nat -> string, k: nat, key: Peer, n: nat)
    returns (steps: seq<Step>)
    requires n >= 1 && forall i, r :: 0 <= i <= k && i <= r ==> Lenient(l, address, name, i, r)
    ensures Possible(Initial, l, steps) && AtMost(Initial, l, steps, key, n)
    ensures After(Initial, l, steps).history == Failures(address, name, k + n)
  {
    hide Possible, After, AtMost, Lenient;
    var first := OneByOne(l, address, name, k, key, n);
    var passing := AllLetIn(l, address, name, k, n, key, n);
    var failing := AllFail(l, address, name, k, n, key, n);
    var s := Stage(address, name, 0, 0);
    Concat(s, l, first, passing, key, n);
    Concat(s, l, first + passing, failing, key, n);
    assert s == Initial;
    steps := first + passing + failing;
  }

  // --- How many failures that is ----------------------------------------------------------------------------

  lemma {:induction false} AddressFailures(address: string, name: nat -> string, k: nat, window: nat)
    requires window >= 1
    ensures Counted(Failures(address, name, k), Peer(address, None), 0, window) == k
    ensures Within(TimesOf(Failures(address, name, k), Peer(address, None)), 0, window) == k
  {
    hide TimesOf, Within, Counted;
    var key := Peer(address, None);
    if k == 0 {
      NothingCounted(key, 0, window);
      NothingWithin(key, window);
    } else {
      AddressFailures(address, name, k - 1, window);
      FailureCounts(Failures(address, name, k - 1), address, name(k - 1), key, window);
    }
  }

  lemma NothingWithin(key: Peer, window: nat)
    ensures Within(TimesOf([], key), 0, window) == 0
  {
  }

  lemma FailureCounts(history: seq<Event<Peer>>, address: string, user: string, key: Peer, window: nat)
    requires window >= 1 && key.address == address
    ensures var more := history + Failure(address, user, 0); var one := if key.user in {None, Some(user)} then 1 else 0;
            && Counted(more, key, 0, window) == Counted(history, key, 0, window) + one
            && Within(TimesOf(more, key), 0, window) == Within(TimesOf(history, key), 0, window) + one
  {
    hide TimesOf, Within, Counted;
    var a, b := Event(Peer(address, Some(user)), 0), Event(Peer(address, None), 0);
    CountedGrows(history, a, key, 0, window);
    CountedGrows(history + [a], b, key, 0, window);
    assert history + Failure(address, user, 0) == history + [a] + [b];
    FailureGrows(history, Request(address, user, Over), 0, key, 0, window);
  }

  lemma {:induction false} UserFailures(address: string, name: nat -> string, k: nat, user: string, window: nat)
    requires window >= 1
    ensures (forall i :: 0 <= i < k ==> name(i) == user) ==>
              && Counted(Failures(address, name, k), Peer(address, Some(user)), 0, window) == k
              && Within(TimesOf(Failures(address, name, k), Peer(address, Some(user))), 0, window) == k
    ensures (forall i :: 0 <= i < k ==> name(i) != user) ==>
              Counted(Failures(address, name, k), Peer(address, Some(user)), 0, window) == 0
  {
    hide TimesOf, Within, Counted;
    var key := Peer(address, Some(user));
    if k == 0 {
      NothingCounted(key, 0, window);
      NothingWithin(key, window);
    } else {
      UserFailures(address, name, k - 1, user, window);
      FailureCounts(Failures(address, name, k - 1), address, name(k - 1), key, window);
    }
  }

  /** A name for every number. */
  function Name(i: nat): (name: string)
    ensures |name| == i
  {
    seq(i, _ => 'a')
  }

  /** One user's requests get there, as long as the address has no lower ceiling. */
  lemma UserBoundIsReached(l: Limits, address: string, user: string, n: nat) returns (steps: seq<Step>)
    requires n >= 1 && l.window >= 1 && 1 <= l.perUser <= l.perAddress
    ensures var key := Peer(address, Some(user));
            && Possible(Initial, l, steps) && AtMost(Initial, l, steps, key, n)
            && Within(TimesOf(After(Initial, l, steps).history, key), 0, l.window) == Most(l.perUser, n)
  {
    hide Possible, After, AtMost, Counted, Within, TimesOf, Failures;
    var name := (_: nat) => user;
    forall i: nat, r: nat | 0 <= i <= l.perUser - 1 && i <= r ensures Lenient(l, address, name, i, r) {
      UserFailures(address, name, i, user, l.window);
      AddressFailures(address, name, i, l.window);
    }
    steps := AllAtTheStart(l, address, name, l.perUser - 1, Peer(address, Some(user)), n);
    UserFailures(address, name, l.perUser - 1 + n, user, l.window);
  }

  /** An address's requests get there, each for another user. */
  lemma AddressBoundIsReached(l: Limits, address: string, n: nat) returns (steps: seq<Step>)
    requires n >= 1 && l.window >= 1 && l.perUser >= 1 && l.perAddress >= 1
    ensures var key := Peer(address, None);
            && Possible(Initial, l, steps) && AtMost(Initial, l, steps, key, n)
            && Within(TimesOf(After(Initial, l, steps).history, key), 0, l.window) == Most(l.perAddress, n)
  {
    hide Possible, After, AtMost, Counted, Within, TimesOf, Failures;
    var name := (i: nat) => Name(i);
    forall i: nat, r: nat | 0 <= i <= l.perAddress - 1 && i <= r ensures Lenient(l, address, name, i, r) {
      assert forall j :: 0 <= j < i ==> |name(j)| != |name(r)|;
      UserFailures(address, name, i, name(r), l.window);
      AddressFailures(address, name, i, l.window);
    }
    steps := AllAtTheStart(l, address, name, l.perAddress - 1, Peer(address, None), n);
    AddressFailures(address, name, l.perAddress - 1 + n, l.window);
  }

  /** No run goes over the ceiling exactly when there is at most one request on its way at a time. */
  lemma CeilingHoldsExactlyOneAtATime(l: Limits, key: Peer, n: nat)
    requires l.window >= 1 && l.perUser >= 1 && l.perAddress >= 1
    requires key.user.Some? ==> l.perUser <= l.perAddress
    ensures n <= 1
            <==> forall steps :: Possible(Initial, l, steps) && AtMost(Initial, l, steps, key, n) ==>
                   Limited(TimesOf(After(Initial, l, steps).history, key), l.window, Ceiling(l, key))
  {
    hide Possible, After, AtMost, Within, TimesOf;
    forall steps | Possible(Initial, l, steps) && AtMost(Initial, l, steps, key, n) && n <= 1
      ensures Limited(TimesOf(After(Initial, l, steps).history, key), l.window, Ceiling(l, key))
    {
      OvershootIsInFlight(l, steps, key, n);
    }
    if n > 1 {
      var steps;
      match key.user {
        case Some(user) => steps := UserBoundIsReached(l, key.address, user, n);
        case None => steps := AddressBoundIsReached(l, key.address, n);
      }
    }
  }
}
