/**
 API keys checked by several threads at a time (`UserDirectory.users` and `api_key_matches`): the calls
 of module UserCache, with the cached keys and the secret store beside them.

 The store is the sequence of its states, the last one current. An epoch ends whenever a call keeps
 what it loaded, because that clears the keys; every cached key remembers the epoch it was fetched in
 and the one it was put away in. A check is known by the call of `users` it begins with.
 */
module KeyChecks {
  import opened Wrappers
  import C = UserCache
  import D = UserDirectory

  type Store = map<string, string>

  datatype Key = Key(digest: D.Digest, since: nat, fetched: nat, put: nat, state: nat)

  /** What a check saw of the keys when it looked: the epoch, and the store when that began. */
  datatype Look = Look(key: Option<Key>, epoch: nat, cleared: nat)

  datatype Check =
    | Looked(user: string, presented: D.Digest, look: Look)
    | Asking(user: string, presented: D.Digest, from: nat)
    | Fetched(user: string, presented: D.Digest, digest: D.Digest, epoch: nat, state: nat, from: nat)
    | AcceptedCached(user: string, presented: D.Digest, look: Look, judged: nat)
    | AcceptedStored(user: string, presented: D.Digest, state: nat, from: nat)
    | Refused(user: string, presented: D.Digest, asked: Option<nat>, from: nat)

  /** wrote says which state the store was in when each state of the file was written. */
  datatype State = State(digest: string -> D.Digest, dir: C.State, store: seq<Store>, wrote: seq<nat>,
                         keys: map<string, Key>, epoch: nat, cleared: nat, now: nat, checks: map<nat, Check>)

  datatype Step =
    | Users(step: C.Step)
    | StoreKey(user: string, key: Option<string>)
    | Tick(passed: nat)
    | LookKey(check: nat, user: string, token: string)
    | Judge(check: nat)
    | FetchKey(check: nat, works: bool)
    | PutKey(check: nat)

  ghost predicate Shaped(s: State) {
    s.dir.file != [] && s.store != []
  }

  function Latest(s: State): nat
    requires s.store != []
  {
    |s.store| - 1
  }

  predicate Can(s: State, step: Step) {
    match step
    case Users(step) => C.Can(s.dir, step)
    case StoreKey(_, _) => true
    case Tick(_) => true
    case LookKey(c, user, _) =>
      c !in s.checks && c in s.dir.calls && s.dir.calls[c].Returned? && D.Active(s.dir.calls[c].users, user)
    case Judge(c) => c in s.checks && s.checks[c].Looked?
    case FetchKey(c, _) => c in s.checks && s.checks[c].Asking?
    case PutKey(c) => c in s.checks && s.checks[c].Fetched?
  }

  /** The check is over as soon as the cached key is the one presented and young enough. */
  function Judged(check: Check, now: nat): Check
    requires check.Looked?
  {
    var key := check.look.key;
    if key.Some? && now - key.value.since < D.API_KEY_CACHE_TTL && key.value.digest == check.presented
    then AcceptedCached(check.user, check.presented, check.look, now)
    else Asking(check.user, check.presented, check.look.cleared)
  }

  /** A read that fails is taken for a key that is not there; a refusal remembers which state of the
      store was asked. */
  function FetchedFrom(s: State, check: Check, works: bool): Check
    requires s.store != [] && check.Asking?
  {
    var stored := s.store[Latest(s)];
    if works && check.user in stored
    then Fetched(check.user, check.presented, s.digest(stored[check.user]), s.epoch, Latest(s), check.from)
    else Refused(check.user, check.presented, if works then Some(Latest(s)) else None, check.from)
  }

  function PutAway(check: Check): Check
    requires check.Fetched?
  {
    if check.digest == check.presented
    then AcceptedStored(check.user, check.presented, check.state, check.from)
    else Refused(check.user, check.presented, Some(check.state), check.from)
  }

  function DoUsers(s: State, step: C.Step): (t: State)
    requires Shaped(s) && C.Can(s.dir, step)
    ensures Shaped(t) && s.store <= t.store
  {
    var dir := C.Do(s.dir, step);
    match step
    case Write(_) => s.(dir := dir, wrote := s.wrote + [Latest(s)])
    // Whatever was cached of the keys is dropped.
    case Keep(_) => s.(dir := dir, keys := map[], epoch := s.epoch + 1, cleared := Latest(s))
    case _ => s.(dir := dir)
  }

  function Do(s: State, step: Step): (t: State)
    requires Shaped(s) && Can(s, step)
    ensures Shaped(t) && s.store <= t.store
  {
    match step
    case Users(users) => DoUsers(s, users)
    case StoreKey(user, key) =>
      var last := s.store[Latest(s)];
      s.(store := s.store + [if key.Some? then last[user := key.value] else last - {user}])
    case Tick(passed) => s.(now := s.now + passed)
    case LookKey(c, user, token) =>
      var key := if user in s.keys then Some(s.keys[user]) else None;
      s.(checks := s.checks[c := Looked(user, s.digest(token), Look(key, s.epoch, s.cleared))])
    case Judge(c) => s.(checks := s.checks[c := Judged(s.checks[c], s.now)])
    case FetchKey(c, works) => s.(checks := s.checks[c := FetchedFrom(s, s.checks[c], works)])
    case PutKey(c) =>
      var Fetched(user, _, digest, epoch, state, _) := s.checks[c];
      s.(keys := s.keys[user := Key(digest, s.now, epoch, s.epoch, state)],
         checks := s.checks[c := PutAway(s.checks[c])])
  }

  ghost predicate Possible(s: State, steps: seq<Step>)
    requires Shaped(s)
    decreases |steps|
  {
    steps == [] || (Can(s, steps[0]) && Possible(Do(s, steps[0]), steps[1..]))
  }

  ghost function After(s: State, steps: seq<Step>): (t: State)
    requires Shaped(s) && Possible(s, steps)
    ensures Shaped(t)
    decreases |steps|
  {
    if steps == [] then s else After(Do(s, steps[0]), steps[1..])
  }

  function Initial(digest: string -> D.Digest, file: C.File, store: Store): State {
    State(digest, C.Initial(file), [store], [0], map[], 0, 0, 0, map[])
  }

  // --- What every step keeps --------------------------------------------------------------------------

  /** The digest of the key a state of the store holds for a user. */
  ghost predicate StoredIn(s: State, state: nat, user: string, digest: D.Digest) {
    state < |s.store| && user in s.store[state] && s.digest(s.store[state][user]) == digest
  }

  /** A key is some stored key, and one fetched in an epoch was stored in it. */
  ghost predicate KeyOk(s: State, user: string, key: Key, epoch: nat, cleared: nat) {
    && StoredIn(s, key.state, user, key.digest) && key.put == epoch
    && (key.fetched == epoch ==> cleared <= key.state)
  }

  ghost predicate LookOk(s: State, user: string, look: Look) {
    look.key.Some? ==> KeyOk(s, user, look.key.value, look.epoch, look.cleared)
  }

  ghost predicate CheckOk(s: State, check: Check)
    requires s.store != []
  {
    match check
    case Looked(user, _, look) => LookOk(s, user, look) && look.cleared <= Latest(s)
    case Asking(_, _, from) => from <= Latest(s)
    case Fetched(user, _, digest, epoch, state, from) =>
      StoredIn(s, state, user, digest) && from <= state && epoch <= s.epoch && (epoch == s.epoch ==> s.cleared <= state)
    case AcceptedCached(user, presented, look, judged) =>
      && LookOk(s, user, look) && look.key.Some? && look.key.value.digest == presented
      && judged - look.key.value.since < D.API_KEY_CACHE_TTL
    case AcceptedStored(user, presented, state, from) => StoredIn(s, state, user, presented) && from <= state
    case Refused(user, presented, asked, from) =>
      asked.Some? ==> from <= asked.value < |s.store| && !StoredIn(s, asked.value, user, presented)
  }

  ghost predicate Inv(s: State)
    requires s.store != []
  {
    && s.cleared <= Latest(s)
    && (forall user :: user in s.keys ==> KeyOk(s, user, s.keys[user], s.epoch, s.cleared))
    && (forall c :: c in s.checks ==> CheckOk(s, s.checks[c]))
  }

  /** More of the store keeps a check as it is. */
  lemma CheckStaysOk(s: State, t: State, check: Check)
    requires s.store != [] && s.store <= t.store && s.digest == t.digest && s.cleared <= Latest(s)
    requires (t.epoch == s.epoch && t.cleared == s.cleared) || t.epoch == s.epoch + 1
    requires CheckOk(s, check)
    ensures CheckOk(t, check)
  {
  }

  lemma KeyStaysOk(s: State, t: State, user: string, key: Key)
    requires s.store <= t.store && s.digest == t.digest && KeyOk(s, user, key, s.epoch, s.cleared)
    ensures KeyOk(t, user, key, s.epoch, s.cleared)
  {
  }

  lemma StepKeepsInv(s: State, step: Step)
    requires Shaped(s) && Inv(s) && Can(s, step)
    ensures Inv(Do(s, step))
  {
    hide KeyOk, CheckOk;
    var t := Do(s, step);
    forall user | user in t.keys ensures KeyOk(t, user, t.keys[user], t.epoch, t.cleared) {
      if step.PutKey? && user == s.checks[step.check].user {
        PutKeyIsOk(s, step.check);
      } else {
        KeyStaysOk(s, t, user, t.keys[user]);
      }
    }
    forall c | c in t.checks ensures CheckOk(t, t.checks[c]) {
      if c in s.checks && t.checks[c] == s.checks[c] {
        CheckStaysOk(s, t, s.checks[c]);
      } else {
        MovingCheckIsOk(s, step);
      }
    }
  }

  lemma PutKeyIsOk(s: State, c: nat)
    requires Shaped(s) && Inv(s) && Can(s, PutKey(c))
    ensures var t := Do(s, PutKey(c)); KeyOk(t, s.checks[c].user, t.keys[s.checks[c].user], t.epoch, t.cleared)
  {
    assert CheckOk(s, s.checks[c]);
  }

  lemma MovingCheckIsOk(s: State, step: Step)
    requires Shaped(s) && Inv(s) && Can(s, step)
    requires step.LookKey? || step.Judge? || step.FetchKey? || step.PutKey?
    ensures CheckOk(Do(s, step), Do(s, step).checks[step.check])
  {
    if step.check in s.checks { assert CheckOk(s, s.checks[step.check]); }
    match step
    case LookKey(_, _, _) =>
    case Judge(_) =>
    case FetchKey(_, _) =>
    case PutKey(_) =>
  }

  lemma {:induction false} RunKeepsInv(s: State, steps: seq<Step>)
    requires Shaped(s) && Inv(s) && Possible(s, steps)
    ensures Inv(After(s, steps))
    decreases |steps|
  {
    hide Inv, Can, Do;
    if steps != [] {
      StepKeepsInv(s, steps[0]);
      RunKeepsInv(Do(s, steps[0]), steps[1..]);
    }
  }

  // --- Which keys are accepted ------------------------------------------------------------------------

  /** In every run, a token accepted by a cached key has been the user's key in the store, and was put
      away less than the cache's time ago; and the key was read since the keys were last cleared,
      as the check saw them, exactly when no clearing came between its reading and its putting away. */
  lemma CachedKeyIsCurrentExactlyWhenPutInTime(digest: string -> D.Digest, file: C.File, store: Store,
                                                steps: seq<Step>, c: nat)
    requires Possible(Initial(digest, file, store), steps)
    requires c in After(Initial(digest, file, store), steps).checks
    requires After(Initial(digest, file, store), steps).checks[c].AcceptedCached?
    ensures var s := After(Initial(digest, file, store), steps);
            var AcceptedCached(user, presented, look, judged) := s.checks[c];
            && look.key.Some? && StoredIn(s, look.key.value.state, user, presented)
            && judged - look.key.value.since < 60
            && (look.key.value.fetched == look.epoch <==> look.key.value.fetched == look.key.value.put)
            && (look.key.value.fetched == look.key.value.put ==> look.cleared <= look.key.value.state)
  {
    hide Possible, After;
    var start := Initial(digest, file, store);
    RunKeepsInv(start, steps);
    assert CheckOk(After(start, steps), After(start, steps).checks[c]);
  }

  /** A key put away after the keys were cleared, though it was fetched before. */
  predicate Late(s: State, step: Step)
    requires Can(s, step)
  {
    step.PutKey? && s.checks[step.check].epoch != s.epoch
  }

  ghost predicate NeverLate(s: State, steps: seq<Step>)
    requires Shaped(s) && Possible(s, steps)
    decreases |steps|
  {
    steps == [] || (!Late(s, steps[0]) && NeverLate(Do(s, steps[0]), steps[1..]))
  }

  /** Every cached key was read since the keys were last cleared. */
  ghost predicate Current(s: State) {
    forall user :: user in s.keys ==> s.keys[user].fetched == s.epoch
  }

  ghost predicate CurrentThroughout(s: State, steps: seq<Step>)
    requires Shaped(s) && Possible(s, steps)
    decreases |steps|
  {
    Current(s) && (steps == [] || CurrentThroughout(Do(s, steps[0]), steps[1..]))
  }

  lemma StepIsCurrent(s: State, step: Step)
    requires Shaped(s) && Can(s, step) && Current(s)
    ensures Current(Do(s, step)) <==> !Late(s, step)
  {
    if step.PutKey? {
      var user := s.checks[step.check].user;
      assert Do(s, step).keys[user].fetched == s.checks[step.check].epoch;
    }
  }

  lemma {:induction false} CurrentFrom(s: State, steps: seq<Step>)
    requires Shaped(s) && Possible(s, steps) && Current(s)
    ensures CurrentThroughout(s, steps) <==> NeverLate(s, steps)
    decreases |steps|
  {
    hide Current, Late, Can, Do;
    if steps != [] {
      StepIsCurrent(s, steps[0]);
      if !Late(s, steps[0]) { CurrentFrom(Do(s, steps[0]), steps[1..]); }
    }
  }

  /** The cache holds only keys read since it was last cleared, all through a run, exactly when no key
      is put away late in it. */
  lemma KeysAreCurrentExactlyWithoutLatePuts(digest: string -> D.Digest, file: C.File, store: Store, steps: seq<Step>)
    requires Possible(Initial(digest, file, store), steps)
    ensures CurrentThroughout(Initial(digest, file, store), steps) <==> NeverLate(Initial(digest, file, store), steps)
  {
    CurrentFrom(Initial(digest, file, store), steps);
  }

  // --- A rotated key ------------------------------------------------------------------------------------

  /** The versions of the file never come back. */
  ghost predicate Distinct(file: seq<C.File>) {
    forall i, m :: 0 <= i < m < |file| ==> file[i].version != file[m].version
  }

  /** The call was begun at a state of the file, and goes on with states from then on. Once it has
      returned, the keys were cleared when the store was no older than the file was at the start. */
  ghost predicate CallOk(s: State, p: C.Pc)
    requires |s.wrote| == |s.dir.file|
  {
    match p
    case Begun(start) => start < |s.dir.file|
    case Statted(start, version, at) => start <= at < |s.dir.file| && s.dir.file[at].version == version
    case Missed(start, version, at) => start <= at < |s.dir.file| && s.dir.file[at].version == version
    case Loaded(start, entry) =>
      start <= entry.statted < |s.dir.file| && s.dir.file[entry.statted].version == entry.version
    case Returned(start, _, _, _) => start < |s.dir.file| && s.wrote[start] <= s.cleared
  }

  /** The store a check may use is no older than the file was when its call began. */
  ghost predicate FromStart(s: State, c: nat, check: Check)
    requires |s.wrote| == |s.dir.file|
  {
    && c in s.dir.calls && s.dir.calls[c].Returned? && s.dir.calls[c].start < |s.dir.file|
    && var from := s.wrote[s.dir.calls[c].start];
       match check
       case Looked(_, _, look) => from <= look.cleared && (look.key.Some? ==> look.key.value.fetched == look.epoch)
       case Asking(_, _, f) => from <= f
       case Fetched(_, _, _, _, _, f) => from <= f
       case AcceptedCached(_, _, look, _) =>
         from <= look.cleared && (look.key.Some? ==> look.key.value.fetched == look.epoch)
       case AcceptedStored(_, _, _, f) => from <= f
       case Refused(_, _, _, f) => from <= f
  }

  ghost predicate InTime(s: State)
    requires Shaped(s)
  {
    && |s.wrote| == |s.dir.file| && s.cleared <= Latest(s)
    && (forall i, j :: 0 <= i <= j < |s.wrote| ==> s.wrote[i] <= s.wrote[j])
    && (forall i :: 0 <= i < |s.wrote| ==> s.wrote[i] <= Latest(s))
    && (s.dir.cache.Some? ==>
          var e := s.dir.cache.value;
          e.statted < |s.dir.file| && s.dir.file[e.statted].version == e.version && s.wrote[e.statted] <= s.cleared)
    && (forall c :: c in s.dir.calls ==> CallOk(s, s.dir.calls[c]))
    && (forall c :: c in s.checks ==> FromStart(s, c, s.checks[c]))
  }

  /** What is true of a call stays true of it. */
  lemma CallStaysOk(s: State, t: State, p: C.Pc)
    requires |s.wrote| == |s.dir.file| && |t.wrote| == |t.dir.file| && CallOk(s, p)
    requires s.wrote <= t.wrote && s.dir.file <= t.dir.file && s.cleared <= t.cleared
    ensures CallOk(t, p)
  {
  }

  lemma CheckStaysFromStart(s: State, t: State, c: nat, check: Check)
    requires |s.wrote| == |s.dir.file| && |t.wrote| == |t.dir.file| && FromStart(s, c, check)
    requires s.wrote <= t.wrote && c in t.dir.calls && t.dir.calls[c] == s.dir.calls[c]
    ensures FromStart(t, c, check)
  {
  }

  /** A call that finds the version of the cache began no later than the cache was loaded. */
  lemma HitIsInTime(s: State, c: nat)
    requires Shaped(s) && InTime(s) && C.Can(s.dir, C.Compare(c)) && Distinct(s.dir.file)
    ensures var t := DoUsers(s, C.Compare(c)); CallOk(t, t.dir.calls[c])
  {
    assert CallOk(s, s.dir.calls[c]);
  }

  lemma KeeperIsInTime(s: State, c: nat)
    requires Shaped(s) && InTime(s) && C.Can(s.dir, C.Keep(c))
    ensures var t := DoUsers(s, C.Keep(c)); CallOk(t, t.dir.calls[c])
  {
    assert CallOk(s, s.dir.calls[c]);
  }

  lemma MovingCallIsOk(s: State, step: C.Step)
    requires Shaped(s) && InTime(s) && C.Can(s.dir, step) && Distinct(s.dir.file) && !step.Write?
    ensures var t := DoUsers(s, step); |t.wrote| == |t.dir.file| && CallOk(t, t.dir.calls[step.call])
  {
    match step
    case Begin(_) =>
    case Stat(c) => assert CallOk(s, s.dir.calls[c]);
    case Compare(c) => HitIsInTime(s, c);
    case Load(c, _) => assert CallOk(s, s.dir.calls[c]);
    case Keep(c) => KeeperIsInTime(s, c);
  }

  lemma OnlyMoverMoves(s: State, step: C.Step)
    requires Shaped(s) && InTime(s) && C.Can(s.dir, step)
    ensures var t := DoUsers(s, step);
            && |t.wrote| == |t.dir.file| && s.wrote <= t.wrote && s.dir.file <= t.dir.file && s.cleared <= t.cleared
            && t.store == s.store && t.checks == s.checks
            && (step.Write? ==> t.dir.calls == s.dir.calls)
            && (!step.Write? ==> t.dir.calls == s.dir.calls[step.call := t.dir.calls[step.call]])
            && (!step.Write? && step.call in s.dir.calls ==> !s.dir.calls[step.call].Returned?)
  {
    hide CallOk, FromStart;
  }

  lemma SharedStaysInTime(s: State, step: C.Step)
    requires Shaped(s) && InTime(s) && C.Can(s.dir, step)
    ensures var t := DoUsers(s, step);
            && |t.wrote| == |t.dir.file| && t.cleared <= Latest(t)
            && (forall i, j :: 0 <= i <= j < |t.wrote| ==> t.wrote[i] <= t.wrote[j])
            && (forall i :: 0 <= i < |t.wrote| ==> t.wrote[i] <= Latest(t))
  {
    hide FromStart, CallOk;
  }

  lemma CacheStaysInTime(s: State, step: C.Step)
    requires Shaped(s) && InTime(s) && C.Can(s.dir, step)
    ensures DoUsers(s, step).dir.cache.Some? && |DoUsers(s, step).wrote| == |DoUsers(s, step).dir.file| ==>
              var t := DoUsers(s, step);
              var e := t.dir.cache.value;
              e.statted < |t.dir.file| && t.dir.file[e.statted].version == e.version && t.wrote[e.statted] <= t.cleared
  {
    hide FromStart;
    if step.Keep? { assert CallOk(s, s.dir.calls[step.call]); } else { hide CallOk; }
  }

  lemma UsersKeepInTime(s: State, step: C.Step)
    requires Shaped(s) && InTime(s) && C.Can(s.dir, step) && Distinct(s.dir.file)
    ensures InTime(DoUsers(s, step))
  {
    var t := DoUsers(s, step);
    OnlyMoverMoves(s, step);
    SharedStaysInTime(s, step);
    CacheStaysInTime(s, step);
    hide DoUsers, CallOk, FromStart, Distinct;
    forall c | c in t.dir.calls ensures CallOk(t, t.dir.calls[c]) {
      if step.Write? || c != step.call { CallStaysOk(s, t, s.dir.calls[c]); } else { MovingCallIsOk(s, step); }
    }
    forall c | c in t.checks ensures FromStart(t, c, t.checks[c]) {
      StartStays(s, step, c);
      CheckStaysFromStart(s, t, c, s.checks[c]);
    }
  }

  lemma StartStays(s: State, step: C.Step, c: nat)
    requires Shaped(s) && InTime(s) && C.Can(s.dir, step) && c in s.checks
    ensures c in s.dir.calls && c in DoUsers(s, step).dir.calls
    ensures DoUsers(s, step).dir.calls[c] == s.dir.calls[c]
  {
    assert FromStart(s, c, s.checks[c]);
    OnlyMoverMoves(s, step);
    hide DoUsers;
  }

  lemma MovingCheckIsFromStart(s: State, step: Step)
    requires Shaped(s) && InTime(s) && Current(s) && Can(s, step)
    requires step.LookKey? || step.Judge? || step.FetchKey? || step.PutKey?
    ensures FromStart(Do(s, step), step.check, Do(s, step).checks[step.check])
  {
    hide CallOk;
    match step
    case LookKey(c, _, _) => CallerIsInTime(s, c);
    case Judge(c) => assert FromStart(s, c, s.checks[c]);
    case FetchKey(c, _) => assert FromStart(s, c, s.checks[c]);
    case PutKey(c) => assert FromStart(s, c, s.checks[c]);
  }

  lemma CallerIsInTime(s: State, c: nat)
    requires Shaped(s) && InTime(s) && c in s.dir.calls && s.dir.calls[c].Returned?
    ensures s.dir.calls[c].start < |s.dir.file| && s.wrote[s.dir.calls[c].start] <= s.cleared
  {
    assert CallOk(s, s.dir.calls[c]);
  }

  lemma ChecksMoveAlone(s: State, step: Step)
    requires Shaped(s) && Can(s, step) && !step.Users?
    ensures var t := Do(s, step);
            && t.dir == s.dir && t.wrote == s.wrote && t.cleared == s.cleared && s.store <= t.store
            && forall c :: c in t.checks && !(c in s.checks && t.checks[c] == s.checks[c]) ==>
                 (step.LookKey? || step.Judge? || step.FetchKey? || step.PutKey?) && step.check == c
  {
    hide Judged, FetchedFrom, PutAway;
  }

  lemma ChecksKeepInTime(s: State, step: Step)
    requires Shaped(s) && InTime(s) && Current(s) && Can(s, step) && !step.Users?
    ensures InTime(Do(s, step))
  {
    var t := Do(s, step);
    ChecksMoveAlone(s, step);
    hide Do, Can, CallOk, FromStart, Distinct, Current;
    forall c | c in t.dir.calls ensures CallOk(t, t.dir.calls[c]) {
      CallStaysOk(s, t, s.dir.calls[c]);
    }
    forall c | c in t.checks ensures FromStart(t, c, t.checks[c]) {
      if c in s.checks && t.checks[c] == s.checks[c] {
        StartOfCheck(s, c);
        CheckStaysFromStart(s, t, c, s.checks[c]);
      } else {
        MovingCheckIsFromStart(s, step);
      }
    }
  }

  lemma StepKeepsInTime(s: State, step: Step)
    requires Shaped(s) && InTime(s) && Current(s) && Can(s, step) && Distinct(s.dir.file)
    ensures InTime(Do(s, step))
  {
    if step.Users? {
      hide InTime;
      UsersKeepInTime(s, step.step);
    } else {
      ChecksKeepInTime(s, step);
    }
  }

  lemma StartOfCheck(s: State, c: nat)
    requires Shaped(s) && InTime(s) && c in s.checks
    ensures c in s.dir.calls
  {
    assert FromStart(s, c, s.checks[c]);
  }

  lemma DoGrowsFile(s: State, step: Step)
    requires Shaped(s) && Can(s, step)
    ensures s.dir.file <= Do(s, step).dir.file
  {
  }

  lemma {:induction false} FileGrows(s: State, steps: seq<Step>)
    requires Shaped(s) && Possible(s, steps)
    ensures s.dir.file <= After(s, steps).dir.file
    decreases |steps|
  {
    hide Do, Can;
    if steps != [] {
      DoGrowsFile(s, steps[0]);
      FileGrows(Do(s, steps[0]), steps[1..]);
    }
  }

  lemma DistinctSoFar(file: seq<C.File>, later: seq<C.File>)
    requires file <= later && Distinct(later)
    ensures Distinct(file)
  {
    assert forall i :: 0 <= i < |file| ==> file[i] == later[i];
  }

  lemma {:induction false} RunKeepsInTime(s: State, steps: seq<Step>)
    requires Shaped(s) && InTime(s) && Current(s) && Possible(s, steps)
    requires NeverLate(s, steps) && Distinct(After(s, steps).dir.file)
    ensures InTime(After(s, steps))
    decreases |steps|
  {
    hide InTime, Current, Late, Can, Do, Distinct;
    if steps != [] {
      var t := Do(s, steps[0]);
      FileGrows(t, steps[1..]);
      DoGrowsFile(s, steps[0]);
      DistinctSoFar(s.dir.file, After(s, steps).dir.file);
      StepIsCurrent(s, steps[0]);
      StepKeepsInTime(s, steps[0]);
      RunKeepsInTime(t, steps[1..]);
    }
  }

  ghost predicate Accepts(check: Check) {
    check.AcceptedCached? || check.AcceptedStored?
  }

  /** Where no key is put away late and the versions of the file never come back, a token is accepted
      only if it has been the user's key since the file was written as it was when the check began: a
      key that was replaced before that is refused, whether it is cached or not. */
  lemma RotatedKeyIsRefused(digest: string -> D.Digest, file: C.File, store: Store, steps: seq<Step>, c: nat)
    requires Possible(Initial(digest, file, store), steps) && NeverLate(Initial(digest, file, store), steps)
    requires Distinct(After(Initial(digest, file, store), steps).dir.file)
    requires c in After(Initial(digest, file, store), steps).checks
    requires Accepts(After(Initial(digest, file, store), steps).checks[c])
    ensures var s := After(Initial(digest, file, store), steps);
            && c in s.dir.calls && s.dir.calls[c].Returned? && s.dir.calls[c].start < |s.wrote|
            && exists i :: s.wrote[s.dir.calls[c].start] <= i
                 && StoredIn(s, i, s.checks[c].user, s.checks[c].presented)
  {
    hide Possible, After, NeverLate, Distinct;
    var start := Initial(digest, file, store);
    RunKeepsInv(start, steps);
    RunKeepsInTime(start, steps);
    var s := After(start, steps);
    var check := s.checks[c];
    assert CheckOk(s, check) && FromStart(s, c, check);
    var i := if check.AcceptedCached? then check.look.key.value.state else check.state;
    assert StoredIn(s, i, check.user, check.presented);
  }

  // --- A disabled user -----------------------------------------------------------------------------------

  /** A check that goes as far as the keys is of a user its call found listed and not disabled. */
  ghost predicate Listed(s: State, c: nat, check: Check) {
    && c in s.dir.calls && s.dir.calls[c].Returned?
    && check.user in s.dir.calls[c].users && s.dir.calls[c].users[check.user] == false
  }

  ghost predicate AllListed(s: State)
    requires Shaped(s)
  {
    C.Inv(s.dir) && forall c :: c in s.checks ==> Listed(s, c, s.checks[c])
  }

  lemma ReturnedStays(dir: C.State, step: C.Step, c: nat)
    requires dir.file != [] && C.Can(dir, step) && c in dir.calls && dir.calls[c].Returned?
    ensures c in C.Do(dir, step).calls && C.Do(dir, step).calls[c] == dir.calls[c]
  {
  }

  lemma StepKeepsListed(s: State, step: Step)
    requires Shaped(s) && AllListed(s) && Can(s, step) && C.Steady(s.dir.file)
    ensures AllListed(Do(s, step))
  {
    hide C.Inv, C.Steady;
    var t := Do(s, step);
    if step.Users? {
      C.StepKeepsInv(s.dir, step.step);
      forall c | c in t.checks ensures Listed(t, c, t.checks[c]) {
        ReturnedStays(s.dir, step.step, c);
      }
    } else {
      ChecksMoveAlone(s, step);
      forall c | c in t.checks ensures Listed(t, c, t.checks[c]) {
        if c in s.checks { assert Listed(s, c, s.checks[c]); }
      }
    }
  }

  lemma {:induction false} RunKeepsListed(s: State, steps: seq<Step>)
    requires Shaped(s) && AllListed(s) && Possible(s, steps) && C.Steady(After(s, steps).dir.file)
    ensures AllListed(After(s, steps))
    decreases |steps|
  {
    hide AllListed, Can, Do, C.Steady;
    if steps != [] {
      FileGrows(s, steps);
      C.SteadySoFar(s.dir.file, After(s, steps).dir.file);
      StepKeepsListed(s, steps[0]);
      RunKeepsListed(Do(s, steps[0]), steps[1..]);
    }
  }

  /** A check gets to the keys exactly when its call has returned and found its user listed, and not as
      disabled. */
  lemma ListedUsersGetToTheKeys(s: State, c: nat, user: string, token: string)
    ensures Can(s, LookKey(c, user, token))
            <==> c !in s.checks && c in s.dir.calls && s.dir.calls[c].Returned?
                 && user in s.dir.calls[c].users && s.dir.calls[c].users[user] == false
  {
  }

  lemma AnsweredFromFile(dir: C.State, c: nat, user: string)
    requires C.Inv(dir) && c in dir.calls && dir.calls[c].Returned? && user in dir.calls[c].users
    ensures exists x :: dir.calls[c].start <= x <= dir.calls[c].end && x < |dir.file|
                        && dir.file[x].users == dir.calls[c].users
  {
    assert C.CallOk(dir.file, dir.calls[c]);
  }

  /** In every run over a file whose versions do not come back after other contents, a token is accepted
      only for a user whom the file lists, and not as disabled, at some moment of the check's call: one
      whom every content of the file since the check began disables or leaves out is refused. */
  lemma DisabledUserIsRefused(digest: string -> D.Digest, file: C.File, store: Store, steps: seq<Step>, c: nat)
    requires Possible(Initial(digest, file, store), steps)
    requires C.Steady(After(Initial(digest, file, store), steps).dir.file)
    requires c in After(Initial(digest, file, store), steps).checks
    requires Accepts(After(Initial(digest, file, store), steps).checks[c])
    ensures var s := After(Initial(digest, file, store), steps); var user := s.checks[c].user;
            && c in s.dir.calls && s.dir.calls[c].Returned?
            && exists x :: s.dir.calls[c].start <= x <= s.dir.calls[c].end && x < |s.dir.file|
                           && user in s.dir.file[x].users && s.dir.file[x].users[user] == false
  {
    hide Possible, After, C.Steady, C.Inv;
    var start := Initial(digest, file, store);
    assert C.Inv(start.dir) by { FirstIsInOrder(file); }
    RunKeepsListed(start, steps);
    var s := After(start, steps);
    assert Listed(s, c, s.checks[c]);
    AnsweredFromFile(s.dir, c, s.checks[c].user);
    var x :| s.dir.calls[c].start <= x <= s.dir.calls[c].end && x < |s.dir.file|
             && s.dir.file[x].users == s.dir.calls[c].users;
    assert s.checks[c].user in s.dir.file[x].users;
  }

  lemma FirstIsInOrder(file: C.File)
    ensures C.Inv(C.Initial(file))
  {
  }

  /** However long a check waits between looking and judging, it takes the cached key only if that was put
      away less than a minute ago by then and is the one presented; else it asks the store. */
  lemma OldKeyIsAskedAgain(s: State, c: nat, passed: nat)
    requires Shaped(s) && c in s.checks && s.checks[c].Looked?
    ensures Possible(s, [Tick(passed), Judge(c)]) && c in After(s, [Tick(passed), Judge(c)]).checks
    ensures var check := After(s, [Tick(passed), Judge(c)]).checks[c];
            var Looked(user, presented, look) := s.checks[c];
            if look.key.Some? && look.key.value.digest == presented && s.now + passed < look.key.value.since + 60
            then check == AcceptedCached(user, presented, look, s.now + passed)
            else check == Asking(user, presented, look.cleared)
  {
    assert [Tick(passed), Judge(c)][1..] == [Judge(c)] && [Judge(c)][1..] == [];
    var t := Do(s, Tick(passed));
    assert Possible(t, [Judge(c)]) && After(t, [Judge(c)]) == Do(t, Judge(c));
  }

  ghost predicate AllAsked(s: State) {
    forall c :: c in s.checks && s.checks[c].Refused? ==> s.checks[c].asked.Some?
  }

  lemma {:induction false} WorkingReadsAsk(s: State, steps: seq<Step>)
    requires Shaped(s) && Possible(s, steps) && AllAsked(s)
    requires forall step :: step in steps && step.FetchKey? ==> step.works
    ensures AllAsked(After(s, steps))
    decreases |steps|
  {
    hide Can, Do;
    if steps != [] {
      assert steps[0] in steps;
      WorkingReadAsks(s, steps[0]);
      WorkingReadsAsk(Do(s, steps[0]), steps[1..]);
    }
  }

  lemma WorkingReadAsks(s: State, step: Step)
    requires Shaped(s) && Can(s, step) && AllAsked(s) && (step.FetchKey? ==> step.works)
    ensures AllAsked(Do(s, step))
  {
  }

  /** In the same runs as RotatedKeyIsRefused, a check of a listed user is refused only if a read of the
      store failed, or it had no key or another key of the user when it was asked, and it was asked
      after the file was as it was when the check began: a fresh key is accepted at once. */
  lemma OnlyTheStoreRefuses(digest: string -> D.Digest, file: C.File, store: Store, steps: seq<Step>, c: nat)
    requires Possible(Initial(digest, file, store), steps) && NeverLate(Initial(digest, file, store), steps)
    requires Distinct(After(Initial(digest, file, store), steps).dir.file)
    requires c in After(Initial(digest, file, store), steps).checks
    requires After(Initial(digest, file, store), steps).checks[c].Refused?
    ensures var s := After(Initial(digest, file, store), steps);
            var Refused(user, presented, asked, _) := s.checks[c];
            && c in s.dir.calls && s.dir.calls[c].Returned? && s.dir.calls[c].start < |s.wrote|
            && (asked.Some? ==>
                  && s.wrote[s.dir.calls[c].start] <= asked.value < |s.store|
                  && (user in s.store[asked.value] ==> s.digest(s.store[asked.value][user]) != presented))
            && ((forall step :: step in steps && step.FetchKey? ==> step.works) ==> asked.Some?)
  {
    hide Possible, After, NeverLate, Distinct;
    var start := Initial(digest, file, store);
    if forall step :: step in steps && step.FetchKey? ==> step.works { WorkingReadsAsk(start, steps); }
    RunKeepsInv(start, steps);
    RunKeepsInTime(start, steps);
    var s := After(start, steps);
    assert CheckOk(s, s.checks[c]) && FromStart(s, c, s.checks[c]);
  }

  // --- A run that accepts one ---------------------------------------------------------------------------

  lemma {:induction false} Then(s: State, steps: seq<Step>, step: Step)
    requires Shaped(s) && Possible(s, steps) && Can(After(s, steps), step)
    ensures Possible(s, steps + [step]) && After(s, steps + [step]) == Do(After(s, steps), step)
    decreases |steps|
  {
    hide Do, Can;
    if steps == [] {
      assert [step][1..] == [] && steps + [step] == [step];
    } else {
      assert (steps + [step])[1..] == steps[1..] + [step];
      Then(Do(s, steps[0]), steps[1..], step);
    }
  }

  function AsUsers(calls: seq<C.Step>): (steps: seq<Step>)
    ensures |steps| == |calls|
  {
    seq(|calls|, i requires 0 <= i < |calls| => Users(calls[i]))
  }

  ghost predicate OnlyReads(calls: seq<C.Step>) {
    forall i :: 0 <= i < |calls| ==> !calls[i].Write? && !calls[i].Keep?
  }

  /** Steps of a call that neither write the file nor keep what was loaded. */
  lemma {:induction false} ReadsRun(s: State, steps: seq<Step>, calls: seq<C.Step>)
    requires Shaped(s) && Possible(s, steps) && OnlyReads(calls) && C.Possible(After(s, steps).dir, calls)
    ensures Possible(s, steps + AsUsers(calls))
    ensures After(s, steps + AsUsers(calls)) == After(s, steps).(dir := C.After(After(s, steps).dir, calls))
    decreases |calls|
  {
    hide Possible, After;
    if calls == [] {
      assert steps + AsUsers(calls) == steps;
    } else {
      var first, rest := calls[0], calls[1..];
      Then(s, steps, Users(first));
      assert OnlyReads(rest) by { assert forall i :: 0 <= i < |rest| ==> rest[i] == calls[i + 1]; }
      ReadsRun(s, steps + [Users(first)], rest);
      assert steps + [Users(first)] + AsUsers(rest) == steps + AsUsers(calls);
    }
  }

  function Loads(c: nat): seq<Step> {
    AsUsers([C.Begin(c), C.Stat(c), C.Compare(c)]) + AsUsers([C.Load(c, true)]) + [Users(C.Keep(c))]
  }

  /** The users directory after a call that loaded the file. */
  function Loaded(dir: C.State, c: nat): C.State
    requires dir.file != []
  {
    var last := |dir.file| - 1;
    var users := dir.file[last].users;
    dir.(cache := Some(C.Entry(dir.file[last].version, users, last, C.From(last))),
         calls := dir.calls[c := C.Returned(last, last, users, C.From(last))])
  }

  /** The directory after a call that looked at the file and found its cache outdated. */
  function Missed(dir: C.State, c: nat): C.State
    requires dir.file != []
  {
    var last := |dir.file| - 1;
    dir.(calls := dir.calls[c := C.Missed(last, dir.file[last].version, last)])
  }

  lemma MissingCall(dir: C.State, c: nat)
    requires dir.file != [] && c !in dir.calls
    requires dir.cache.None? || dir.cache.value.version != dir.file[|dir.file| - 1].version
    ensures C.Possible(dir, [C.Begin(c), C.Stat(c), C.Compare(c)])
    ensures C.After(dir, [C.Begin(c), C.Stat(c), C.Compare(c)]) == Missed(dir, c)
  {
    C.ThreeSteps(dir, C.Begin(c), C.Stat(c), C.Compare(c));
  }

  lemma LookingRuns(s: State, steps: seq<Step>, c: nat)
    requires Shaped(s) && Possible(s, steps)
    requires var dir := After(s, steps).dir;
             && c !in dir.calls
             && (dir.cache.None? || dir.cache.value.version != dir.file[|dir.file| - 1].version)
    ensures var looked := steps + AsUsers([C.Begin(c), C.Stat(c), C.Compare(c)]);
            Possible(s, looked) && After(s, looked) == After(s, steps).(dir := Missed(After(s, steps).dir, c))
  {
    hide Possible, After, C.Possible, C.After;
    MissingCall(After(s, steps).dir, c);
    hide Missed;
    ReadsRun(s, steps, [C.Begin(c), C.Stat(c), C.Compare(c)]);
  }

  lemma LoadRuns(s: State, steps: seq<Step>, dir: C.State, c: nat)
    requires Shaped(s) && Possible(s, steps) && dir.file != [] && After(s, steps).dir == Missed(dir, c)
    ensures var loaded, last := steps + AsUsers([C.Load(c, true)]), |dir.file| - 1;
            var entry := C.Entry(dir.file[last].version, dir.file[last].users, last, C.From(last));
            && Possible(s, loaded)
            && After(s, loaded) == After(s, steps).(dir := dir.(calls := dir.calls[c := C.Loaded(last, entry)]))
  {
    hide Possible, After, C.Possible, C.After;
    var last := |dir.file| - 1;
    C.OneStep(Missed(dir, c), C.Load(c, true));
    var entry := C.Entry(dir.file[last].version, dir.file[last].users, last, C.From(last));
    assert C.Do(Missed(dir, c), C.Load(c, true)) == dir.(calls := dir.calls[c := C.Loaded(last, entry)]);
    hide Missed, C.Do;
    ReadsRun(s, steps, [C.Load(c, true)]);
  }

  lemma KeepRuns(s: State, steps: seq<Step>, dir: C.State, c: nat)
    requires Shaped(s) && Possible(s, steps) && dir.file != []
    requires var last := |dir.file| - 1;
             var entry := C.Entry(dir.file[last].version, dir.file[last].users, last, C.From(last));
             After(s, steps).dir == dir.(calls := dir.calls[c := C.Loaded(last, entry)])
    ensures var kept, t := steps + [Users(C.Keep(c))], After(s, steps);
            && Possible(s, kept)
            && After(s, kept) == t.(dir := Loaded(dir, c), keys := map[], epoch := t.epoch + 1, cleared := Latest(t))
  {
    hide Possible, After;
    Then(s, steps, Users(C.Keep(c)));
  }

  lemma LoadingCall(s: State, steps: seq<Step>, c: nat)
    requires Shaped(s) && Possible(s, steps)
    requires var t := After(s, steps);
             && c !in t.dir.calls
             && (t.dir.cache.None? || t.dir.cache.value.version != t.dir.file[|t.dir.file| - 1].version)
    ensures var t := After(s, steps);
            && Possible(s, steps + Loads(c))
            && After(s, steps + Loads(c))
               == t.(dir := Loaded(t.dir, c), keys := map[], epoch := t.epoch + 1, cleared := Latest(t))
  {
    hide Possible, After, Loaded, Missed, AsUsers;
    var dir, looked := After(s, steps).dir, steps + AsUsers([C.Begin(c), C.Stat(c), C.Compare(c)]);
    LookingRuns(s, steps, c);
    LoadRuns(s, looked, dir, c);
    KeepRuns(s, looked + AsUsers([C.Load(c, true)]), dir, c);
    assert looked + AsUsers([C.Load(c, true)]) + [Users(C.Keep(c))] == steps + Loads(c);
  }

  function Rotates(user: string, key: string, file: C.File): seq<Step> {
    [StoreKey(user, Some(key)), Users(C.Write(file))]
  }

  /** The state of the run just before the late key is put away, and after that. */
  function Overtaken(digest: string -> D.Digest, user: string, key: string, other: string,
                     versions: (int, int)): State {
    var first, second := C.File(Some(versions.0), map[user := false]), C.File(Some(versions.1), map[user := false]);
    State(digest, Loaded(Loaded(C.Initial(first), 0).(file := [first, second]), 1),
          [map[user := key], map[user := other]], [0, 1], map[], 2, 1, 0,
          map[0 := Fetched(user, digest(key), digest(key), 1, 0, 0)])
  }

  function Start(digest: string -> D.Digest, user: string, key: string, version: int): State {
    Initial(digest, C.File(Some(version), map[user := false]), map[user := key])
  }

  function Fetches(user: string, token: string): seq<Step> {
    [LookKey(0, user, token), Judge(0), FetchKey(0, true)]
  }

  lemma FetchingCheck(digest: string -> D.Digest, user: string, key: string, version: int) returns (steps: seq<Step>)
    ensures var s := Start(digest, user, key, version);
            && Possible(s, steps)
            && After(s, steps)
               == s.(dir := Loaded(s.dir, 0), epoch := 1,
                     checks := map[0 := Fetched(user, digest(key), digest(key), 1, 0, 0)])
  {
    var s := Start(digest, user, key, version);
    LoadingCall(s, [], 0);
    FetchRuns(s, [] + Loads(0), user, key);
    hide Loads;
    steps := [] + Loads(0) + Fetches(user, key);
  }

  /** A check that fetches a key and is overtaken before it puts it away: the key is replaced, the file
      written, and another call clears the keys. */
  lemma OvertakenCheck(digest: string -> D.Digest, user: string, key: string, other: string, versions: (int, int))
    returns (steps: seq<Step>)
    requires versions.0 != versions.1
    ensures var s := Start(digest, user, key, versions.0);
            Possible(s, steps) && After(s, steps) == Overtaken(digest, user, key, other, versions)
  {
    var s, second := Start(digest, user, key, versions.0), C.File(Some(versions.1), map[user := false]);
    steps := FetchingCheck(digest, user, key, versions.0);
    hide Possible, After, Loads, Rotates;
    RotationRuns(s, steps, user, other, second);
    assert map[user := key][user := other] == map[user := other];
    LoadingCall(s, steps + Rotates(user, other, second), 1);
    steps := steps + Rotates(user, other, second) + Loads(1);
  }

  lemma FetchRuns(s: State, steps: seq<Step>, user: string, key: string)
    requires Shaped(s) && Possible(s, steps)
    requires var t := After(s, steps);
             && Can(t, LookKey(0, user, key)) && user !in t.keys
             && user in t.store[Latest(t)] && t.store[Latest(t)][user] == key
    ensures var t := After(s, steps);
            && Possible(s, steps + Fetches(user, key))
            && After(s, steps + Fetches(user, key))
               == t.(checks := t.checks[0 := Fetched(user, t.digest(key), t.digest(key), t.epoch, Latest(t),
                                                     t.cleared)])
  {
    hide Possible, After;
    var looked := steps + [LookKey(0, user, key)];
    Then(s, steps, LookKey(0, user, key));
    Then(s, looked, Judge(0));
    Then(s, looked + [Judge(0)], FetchKey(0, true));
    assert looked + [Judge(0)] + [FetchKey(0, true)] == steps + Fetches(user, key);
  }

  lemma RotationRuns(s: State, steps: seq<Step>, user: string, key: string, file: C.File)
    requires Shaped(s) && Possible(s, steps)
    ensures var t := After(s, steps);
            && Possible(s, steps + Rotates(user, key, file))
            && After(s, steps + Rotates(user, key, file))
               == t.(store := t.store + [t.store[Latest(t)][user := key]], wrote := t.wrote + [|t.store|],
                     dir := t.dir.(file := t.dir.file + [file]))
  {
    hide Possible, After;
    Then(s, steps, StoreKey(user, Some(key)));
    Then(s, steps + [StoreKey(user, Some(key))], Users(C.Write(file)));
    assert steps + [StoreKey(user, Some(key))] + [Users(C.Write(file))] == steps + Rotates(user, key, file);
  }

  lemma LatePut(s: State, steps: seq<Step>, c: nat)
    requires Shaped(s) && Possible(s, steps)
    requires Can(After(s, steps), PutKey(c)) && Late(After(s, steps), PutKey(c))
    ensures Possible(s, steps + [PutKey(c)]) && !NeverLate(s, steps + [PutKey(c)])
    ensures After(s, steps + [PutKey(c)]) == Do(After(s, steps), PutKey(c))
    decreases |steps|
  {
    hide Do, Can, Late;
    Then(s, steps, PutKey(c));
    if steps == [] {
      assert steps + [PutKey(c)] == [PutKey(c)];
    } else {
      assert (steps + [PutKey(c)])[1..] == steps[1..] + [PutKey(c)];
      LatePut(Do(s, steps[0]), steps[1..], c);
    }
  }

  lemma LateKeyIsCached(digest: string -> D.Digest, user: string, key: string, other: string, versions: (int, int))
    returns (steps: seq<Step>)
    requires versions.0 != versions.1
    ensures var s, t := Start(digest, user, key, versions.0), Overtaken(digest, user, key, other, versions);
            && Possible(s, steps) && !NeverLate(s, steps)
            && After(s, steps)
               == t.(keys := map[user := Key(digest(key), 0, 1, 2, 0)],
                     checks := map[0 := AcceptedStored(user, digest(key), 0, 0)])
  {
    steps := OvertakenCheck(digest, user, key, other, versions);
    LatePut(Start(digest, user, key, versions.0), steps, 0);
    steps := steps + [PutKey(0)];
  }

  /** After such a run a check that begins when the file was written anew, and the key long replaced,
      is accepted with the old key. */
  lemma LateKeyIsAccepted(digest: string -> D.Digest, user: string, key: string, other: string, versions: (int, int))
    returns (steps: seq<Step>)
    requires versions.0 != versions.1
    ensures var s := Initial(digest, C.File(Some(versions.0), map[user := false]), map[user := key]);
            && Possible(s, steps) && !NeverLate(s, steps) && Distinct(After(s, steps).dir.file)
            && var t := After(s, steps);
               && 2 in t.checks && t.checks[2].AcceptedCached? && t.checks[2].presented == digest(key)
               && 2 in t.dir.calls && t.dir.calls[2].Returned? && t.dir.calls[2].start < |t.wrote|
               && forall i :: t.wrote[t.dir.calls[2].start] <= i < |t.store| ==> t.store[i] == map[user := other]
  {
    steps := LateKeyIsCached(digest, user, key, other, versions);
    hide Possible, After, NeverLate, Hits;
    HittingCheck(Start(digest, user, key, versions.0), steps, user, key);
    steps := steps + Hits(user, key);
  }

  function Hits(user: string, token: string): seq<Step> {
    AsUsers([C.Begin(2), C.Stat(2), C.Compare(2)]) + [LookKey(2, user, token)] + [Judge(2)]
  }

  lemma HittingCheck(s: State, steps: seq<Step>, user: string, token: string)
    requires Shaped(s) && Possible(s, steps) && !NeverLate(s, steps)
    requires var t := After(s, steps);
             && 2 !in t.dir.calls && 2 !in t.checks && t.dir.cache.Some?
             && t.dir.cache.value.version == t.dir.file[|t.dir.file| - 1].version
             && D.Active(t.dir.cache.value.users, user)
             && user in t.keys && t.keys[user].digest == t.digest(token)
             && t.now - t.keys[user].since < D.API_KEY_CACHE_TTL
    ensures Possible(s, steps + Hits(user, token)) && !NeverLate(s, steps + Hits(user, token))
    ensures var t, last := After(s, steps), |After(s, steps).dir.file| - 1;
            var entry, look := t.dir.cache.value, Look(Some(t.keys[user]), t.epoch, t.cleared);
            After(s, steps + Hits(user, token))
            == t.(dir := t.dir.(calls := t.dir.calls[2 := C.Returned(last, last, entry.users, entry.source)]),
                  checks := t.checks[2 := AcceptedCached(user, t.digest(token), look, t.now)])
  {
    hide Possible, After, NeverLate, C.Possible, C.After;
    var t, calls := After(s, steps), [C.Begin(2), C.Stat(2), C.Compare(2)];
    C.HittingCall(t.dir, 2);
    ReadsRun(s, steps, calls);
    var hit := steps + AsUsers(calls);
    Then(s, hit, LookKey(2, user, token));
    Then(s, hit + [LookKey(2, user, token)], Judge(2));
    assert hit + [LookKey(2, user, token)] + [Judge(2)] == steps + Hits(user, token);
    hide Do, Can, Hits;
    StillLate(s, steps, Hits(user, token));
  }

  lemma {:induction false} StillLate(s: State, steps: seq<Step>, more: seq<Step>)
    requires Shaped(s) && Possible(s, steps) && !NeverLate(s, steps) && Possible(s, steps + more)
    ensures !NeverLate(s, steps + more)
    decreases |steps|
  {
    hide Do, Can, Late;
    assert steps != [] && (steps + more)[1..] == steps[1..] + more;
    if !Late(s, steps[0]) { StillLate(Do(s, steps[0]), steps[1..], more); }
  }
}
