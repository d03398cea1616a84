/**
 The cache of users.json (`UserDirectory.users`) under concurrent calls.

 Threads step through the call one read or one locked section at a time, while other processes write
 the file. The file is the sequence of its states, the last one current; each has the version a stat
 shows. A call's result remembers which state it was read from.
 */
module UserCache {
  import opened Wrappers

  /** Each user, and whether they are disabled. */
  type Users = map<string, bool>

  /** A version is None where there is no file. */
  datatype File = File(version: Option<int>, users: Users)

  /** Where users came from: a state of the file, or a read that failed. */
  datatype Source = From(state: nat) | FailedRead

  datatype Entry = Entry(version: Option<int>, users: Users, statted: nat, source: Source)

  datatype Pc =
    | Begun(start: nat)
    | Statted(start: nat, version: Option<int>, at: nat)
    | Missed(start: nat, version: Option<int>, at: nat)
    | Loaded(start: nat, entry: Entry)
    | Returned(start: nat, end: nat, users: Users, source: Source)

  datatype State = State(file: seq<File>, cache: Option<Entry>, calls: map<nat, Pc>)

  datatype Step =
    | Write(file: File)
    | Begin(call: nat)
    | Stat(call: nat)
    | Compare(call: nat)
    | Load(call: nat, works: bool)
    | Keep(call: nat)

  function Last(s: State): nat
    requires s.file != []
  {
    |s.file| - 1
  }

  predicate Can(s: State, step: Step) {
    match step
    case Write(_) => true
    case Begin(c) => c !in s.calls
    case Stat(c) => c in s.calls && s.calls[c].Begun?
    case Compare(c) => c in s.calls && s.calls[c].Statted?
    case Load(c, _) => c in s.calls && s.calls[c].Missed?
    case Keep(c) => c in s.calls && s.calls[c].Loaded?
  }

  function Do(s: State, step: Step): (t: State)
    requires s.file != [] && Can(s, step)
    ensures s.file <= t.file
  {
    match step
    case Write(file) => s.(file := s.file + [file])
    case Begin(c) => s.(calls := s.calls[c := Begun(Last(s))])
    case Stat(c) =>
      s.(calls := s.calls[c := Statted(s.calls[c].start, s.file[Last(s)].version, Last(s))])
    case Compare(c) =>
      var p := s.calls[c];
      if s.cache.Some? && s.cache.value.version == p.version then
        s.(calls := s.calls[c := Returned(p.start, Last(s), s.cache.value.users, s.cache.value.source)])
      else s.(calls := s.calls[c := Missed(p.start, p.version, p.at)])
    case Load(c, works) =>
      var p := s.calls[c];
      var entry :=
        if works then Entry(p.version, s.file[Last(s)].users, p.at, From(Last(s)))
        else Entry(p.version, map[], p.at, FailedRead);
      s.(calls := s.calls[c := Loaded(p.start, entry)])
    case Keep(c) =>
      var p := s.calls[c];
      s.(cache := Some(p.entry), calls := s.calls[c := Returned(p.start, Last(s), p.entry.users, p.entry.source)])
  }

  predicate Possible(s: State, steps: seq<Step>)
    requires s.file != []
    decreases |steps|
  {
    steps == [] || (Can(s, steps[0]) && Possible(Do(s, steps[0]), steps[1..]))
  }

  function After(s: State, steps: seq<Step>): (t: State)
    requires s.file != [] && Possible(s, steps)
    ensures t.file != []
    decreases |steps|
  {
    if steps == [] then s else After(Do(s, steps[0]), steps[1..])
  }

  function Initial(file: File): State {
    State([file], None, map[])
  }

  // --- What a call promises ---------------------------------------------------------------------------

  /** The users are the file's, at some moment of the call. */
  ghost predicate Fresh(file: seq<File>, start: nat, end: nat, users: Users) {
    exists x :: start <= x <= end && x < |file| && file[x].users == users
  }

  ghost predicate Answered(file: seq<File>, p: Pc) {
    p.Returned? ==> if p.source.FailedRead? then p.users == map[] else Fresh(file, p.start, p.end, p.users)
  }

  /** No answer is staler than the file, but for a read that failed. */
  ghost predicate NeverStale(s: State) {
    forall c :: c in s.calls ==> Answered(s.file, s.calls[c])
  }

  /** When the file shows a version again, it holds what it held ever since it first did. */
  ghost predicate Steady(file: seq<File>) {
    forall i, j, m :: 0 <= i <= j < m < |file| && file[i].version == file[m].version ==> file[j].users == file[m].users
  }

  // --- What every step keeps --------------------------------------------------------------------------

  ghost predicate EntryOk(file: seq<File>, e: Entry) {
    && e.statted < |file| && file[e.statted].version == e.version
    && (e.source.FailedRead? ==> e.users == map[])
    && (e.source.From? ==> e.statted <= e.source.state < |file| && file[e.source.state].users == e.users)
  }

  ghost predicate CallOk(file: seq<File>, p: Pc) {
    match p
    case Begun(start) => start < |file|
    case Statted(start, version, at) => start <= at < |file| && file[at].version == version
    case Missed(start, version, at) => start <= at < |file| && file[at].version == version
    case Loaded(start, entry) => EntryOk(file, entry) && start <= entry.statted
    case Returned(_, _, _, _) => Answered(file, p)
  }

  ghost predicate Inv(s: State) {
    && s.file != []
    && (s.cache.Some? ==> EntryOk(s.file, s.cache.value))
    && (forall c :: c in s.calls ==> CallOk(s.file, s.calls[c]))
  }

  /** A hit is fresh: either the cached users were read after the stat, or the version has come back
      to the same users. */
  lemma HitIsAnswered(file: seq<File>, e: Entry, start: nat, at: nat)
    requires Steady(file) && EntryOk(file, e) && start <= at < |file| && file[at].version == e.version
    ensures Answered(file, Returned(start, |file| - 1, e.users, e.source))
  {
    if e.source.From? {
      var j := e.source.state;
      var x := if j >= at then j else at;
      assert file[x].users == e.users;
    }
  }

  lemma LoadedIsAnswered(file: seq<File>, e: Entry, start: nat)
    requires EntryOk(file, e) && start <= e.statted
    ensures Answered(file, Returned(start, |file| - 1, e.users, e.source))
  {
  }

  lemma WritingKeepsCall(file: seq<File>, more: File, p: Pc)
    requires CallOk(file, p)
    ensures CallOk(file + [more], p)
  {
    if p.Returned? && p.source.From? {
      var x :| p.start <= x <= p.end && x < |file| && file[x].users == p.users;
      assert (file + [more])[x] == file[x];
    }
  }

  lemma StepKeepsInv(s: State, step: Step)
    requires Inv(s) && Can(s, step) && Steady(s.file)
    ensures Inv(Do(s, step))
  {
    hide Answered, Steady;
    match step {
      case Write(file) =>
        forall c | c in s.calls ensures CallOk(s.file + [file], s.calls[c]) {
          WritingKeepsCall(s.file, file, s.calls[c]);
        }
      case Begin(_) =>
      case Stat(_) =>
      case Compare(c) =>
        if s.cache.Some? && s.cache.value.version == s.calls[c].version {
          HitIsAnswered(s.file, s.cache.value, s.calls[c].start, s.calls[c].at);
        }
      case Load(_, _) =>
      case Keep(c) =>
        LoadedIsAnswered(s.file, s.calls[c].entry, s.calls[c].start);
    }
  }

  lemma {:induction false} FileGrows(s: State, steps: seq<Step>)
    requires s.file != [] && Possible(s, steps)
    ensures s.file <= After(s, steps).file
    decreases |steps|
  {
    if steps != [] { FileGrows(Do(s, steps[0]), steps[1..]); }
  }

  lemma {:induction false} RunKeepsInv(s: State, steps: seq<Step>)
    requires Inv(s) && Possible(s, steps) && Steady(After(s, steps).file)
    ensures Inv(After(s, steps))
    decreases |steps|
  {
    if steps != [] {
      hide Inv, Steady, Do;
      FileGrows(s, steps);
      SteadySoFar(s.file, After(s, steps).file);
      StepKeepsInv(s, steps[0]);
      RunKeepsInv(Do(s, steps[0]), steps[1..]);
    }
  }

  lemma SteadySoFar(file: seq<File>, later: seq<File>)
    requires file <= later && Steady(later)
    ensures Steady(file)
  {
    assert forall i :: 0 <= i < |file| ==> file[i] == later[i];
  }

  /** As long as the file is steady, no call of any run is answered with users staler than the file
      was when the call began - unless a read failed. */
  lemma SteadyIsNeverStale(first: File, steps: seq<Step>)
    requires Possible(Initial(first), steps) && Steady(After(Initial(first), steps).file)
    ensures NeverStale(After(Initial(first), steps))
  {
    RunKeepsInv(Initial(first), steps);
  }

  // --- And when it is not steady ----------------------------------------------------------------------

  function Writes(files: seq<File>): (steps: seq<Step>)
    ensures |steps| == |files|
  {
    seq(|files|, i requires 0 <= i < |files| => Write(files[i]))
  }

  /** All that was read was read, or every read failed and shows no users. */
  ghost predicate AllAlike(s: State, works: bool) {
    && (s.cache.Some? ==> SourceIs(s.cache.value.source, s.cache.value.users, works))
    && forall c :: c in s.calls ==>
         match s.calls[c]
         case Loaded(_, entry) => SourceIs(entry.source, entry.users, works)
         case Returned(_, _, users, source) => SourceIs(source, users, works)
         case _ => true
  }

  ghost predicate SourceIs(source: Source, users: Users, works: bool) {
    if works then source != FailedRead else source == FailedRead && users == map[]
  }

  lemma {:induction false} RunIsAlike(s: State, steps: seq<Step>, works: bool)
    requires s.file != [] && Possible(s, steps) && AllAlike(s, works)
    requires forall step :: step in steps && step.Load? ==> step.works == works
    ensures AllAlike(After(s, steps), works)
    decreases |steps|
  {
    hide Do, Can, AllAlike;
    if steps != [] {
      assert steps[0] in steps;
      StepIsAlike(s, steps[0], works);
      RunIsAlike(Do(s, steps[0]), steps[1..], works);
    }
  }

  lemma StepIsAlike(s: State, step: Step, works: bool)
    requires s.file != [] && Can(s, step) && AllAlike(s, works) && (step.Load? ==> step.works == works)
    ensures AllAlike(Do(s, step), works)
  {
  }

  /** Where no read of the file fails, no answer is put down to a failed read; where every read fails, every
      answer is that there are no users. */
  lemma ReadsDecideAnswers(first: File, steps: seq<Step>, c: nat)
    requires Possible(Initial(first), steps)
    requires c in After(Initial(first), steps).calls && After(Initial(first), steps).calls[c].Returned?
    ensures (forall step :: step in steps && step.Load? ==> step.works) ==>
              After(Initial(first), steps).calls[c].source != FailedRead
    ensures (forall step :: step in steps && step.Load? ==> !step.works) ==>
              After(Initial(first), steps).calls[c].users == map[]
  {
    hide Possible, After;
    var s := Initial(first);
    if forall step :: step in steps && step.Load? ==> step.works { RunIsAlike(s, steps, true); }
    if forall step :: step in steps && step.Load? ==> !step.works { RunIsAlike(s, steps, false); }
  }

  lemma {:induction false} WritesRun(s: State, files: seq<File>)
    requires s.file != []
    ensures Possible(s, Writes(files)) && After(s, Writes(files)) == s.(file := s.file + files)
    decreases |files|
  {
    if files == [] {
      assert s.file + files == s.file;
    } else {
      assert Writes(files)[1..] == Writes(files[1..]);
      WritesRun(s.(file := s.file + [files[0]]), files[1..]);
      assert (s.file + [files[0]]) + files[1..] == s.file + files;
    }
  }

  lemma {:induction false} AfterConcat(s: State, a: seq<Step>, b: seq<Step>)
    requires s.file != [] && Possible(s, a) && Possible(After(s, a), b)
    ensures Possible(s, a + b) && After(s, a + b) == After(After(s, a), b)
    decreases |a|
  {
    hide Do;
    if a == [] {
      assert a + b == b;
    } else {
      assert (a + b)[1..] == a[1..] + b;
      AfterConcat(Do(s, a[0]), a[1..], b);
    }
  }

  lemma OneStep(s: State, a: Step)
    requires s.file != [] && Can(s, a)
    ensures Possible(s, [a]) && After(s, [a]) == Do(s, a)
  {
    hide Do, Can;
    assert [a][1..] == [];
  }

  lemma TwoSteps(s: State, a: Step, b: Step)
    requires s.file != [] && Can(s, a) && Can(Do(s, a), b)
    ensures Possible(s, [a, b]) && After(s, [a, b]) == Do(Do(s, a), b)
  {
    hide Do, Can;
    OneStep(s, a);
    OneStep(Do(s, a), b);
    AfterConcat(s, [a], [b]);
    assert [a] + [b] == [a, b];
  }

  lemma ThreeSteps(s: State, a: Step, b: Step, c: Step)
    requires s.file != [] && Can(s, a) && Can(Do(s, a), b) && Can(Do(Do(s, a), b), c)
    ensures Possible(s, [a, b, c]) && After(s, [a, b, c]) == Do(Do(Do(s, a), b), c)
  {
    hide Do, Can;
    TwoSteps(s, a, b);
    OneStep(Do(Do(s, a), b), c);
    AfterConcat(s, [a, b], [c]);
    assert [a, b] + [c] == [a, b, c];
  }

  /** A call that misses, is overtaken by writes before it loads, and keeps what it loaded under the
      version it saw first. */
  lemma OvertakenCall(s: State, files: seq<File>) returns (steps: seq<Step>)
    requires s.file != [] && s.cache.None? && s.calls == map[]
    ensures Possible(s, steps)
    ensures var t := After(s, steps); var now := s.file + files;
            && t.file == now && t.calls.Keys == {0}
            && t.cache == Some(Entry(s.file[|s.file| - 1].version, now[|now| - 1].users, |s.file| - 1, From(|now| - 1)))
  {
    var version, at := s.file[Last(s)].version, Last(s);
    ThreeSteps(s, Begin(0), Stat(0), Compare(0));
    var missed := s.(calls := map[0 := Missed(at, version, at)]);
    assert After(s, [Begin(0), Stat(0), Compare(0)]) == missed;
    WritesRun(missed, files);
    AfterConcat(s, [Begin(0), Stat(0), Compare(0)], Writes(files));
    var written := missed.(file := s.file + files);
    TwoSteps(written, Load(0, true), Keep(0));
    AfterConcat(s, [Begin(0), Stat(0), Compare(0)] + Writes(files), [Load(0, true), Keep(0)]);
    steps := [Begin(0), Stat(0), Compare(0)] + Writes(files) + [Load(0, true), Keep(0)];
  }

  /** A call that finds the version of the cache. */
  lemma HittingCall(s: State, c: nat)
    requires s.file != [] && c !in s.calls && s.cache.Some? && s.cache.value.version == s.file[Last(s)].version
    ensures Possible(s, [Begin(c), Stat(c), Compare(c)])
    ensures After(s, [Begin(c), Stat(c), Compare(c)])
            == s.(calls := s.calls[c := Returned(Last(s), Last(s), s.cache.value.users, s.cache.value.source)])
  {
    ThreeSteps(s, Begin(c), Stat(c), Compare(c));
  }

  /** A call overtaken by writes, more writes, and a call that finds the version back. */
  lemma RunToHit(file: seq<File>, i: nat, j: nat, m: nat) returns (steps: seq<Step>)
    requires i <= j < m < |file| && file[i].version == file[m].version
    ensures Possible(Initial(file[0]), steps)
    ensures var t := After(Initial(file[0]), steps);
            t.file == file[..m + 1] && 1 in t.calls && t.calls[1] == Returned(m, m, file[j].users, From(j))
  {
    hide After, Possible, Do, Can;
    var start := Initial(file[0]);
    WritesRun(start, file[1..i + 1]);
    assert [file[0]] + file[1..i + 1] == file[..i + 1];
    var first := start.(file := file[..i + 1]);
    var overtaken := OvertakenCall(first, file[i + 1..j + 1]);
    assert file[..i + 1] + file[i + 1..j + 1] == file[..j + 1];
    AfterConcat(start, Writes(file[1..i + 1]), overtaken);
    steps := WriteAndHit(file, After(first, overtaken), j, m);
    AfterConcat(start, Writes(file[1..i + 1]) + overtaken, steps);
    steps := Writes(file[1..i + 1]) + overtaken + steps;
  }

  lemma WriteAndHit(file: seq<File>, s: State, j: nat, m: nat) returns (steps: seq<Step>)
    requires j < m < |file| && s.file == file[..j + 1] && 1 !in s.calls
    requires s.cache.Some? && s.cache.value.version == file[m].version
    ensures Possible(s, steps)
    ensures var t := After(s, steps);
            t.file == file[..m + 1] && 1 in t.calls
            && t.calls[1] == Returned(m, m, s.cache.value.users, s.cache.value.source)
  {
    hide After, Possible, Do, Can;
    WritesRun(s, file[j + 1..m + 1]);
    assert file[..j + 1] + file[j + 1..m + 1] == file[..m + 1];
    HittingCall(s.(file := file[..m + 1]), 1);
    steps := [Begin(1), Stat(1), Compare(1)];
    AfterConcat(s, Writes(file[j + 1..m + 1]), steps);
    steps := Writes(file[j + 1..m + 1]) + steps;
  }

  /** A file that is not steady has a run that answers with stale users. */
  lemma UnsteadyGoesStale(file: seq<File>) returns (steps: seq<Step>)
    requires file != [] && !Steady(file)
    ensures Possible(Initial(file[0]), steps) && After(Initial(file[0]), steps).file <= file
    ensures !NeverStale(After(Initial(file[0]), steps))
  {
    hide After, Possible, Answered;
    var i, j, m :| 0 <= i <= j < m < |file| && file[i].version == file[m].version && file[j].users != file[m].users;
    hide Steady;
    steps := RunToHit(file, i, j, m);
    assert file[..m + 1] <= file;
    StaleAnswer(file, j, m);
  }

  lemma StaleAnswer(file: seq<File>, j: nat, m: nat)
    requires j < m < |file| && file[j].users != file[m].users
    ensures !Answered(file[..m + 1], Returned(m, m, file[j].users, From(j)))
  {
  }

  /** Calls are never answered stale, however they interleave, exactly when the file is steady. */
  lemma NeverStaleExactlyWhenSteady(file: seq<File>)
    requires file != []
    ensures Steady(file)
            <==> forall steps :: Possible(Initial(file[0]), steps) && After(Initial(file[0]), steps).file <= file
                   ==> NeverStale(After(Initial(file[0]), steps))
  {
    hide After, Possible, Do, Steady, NeverStale;
    if Steady(file) {
      forall steps | Possible(Initial(file[0]), steps) && After(Initial(file[0]), steps).file <= file
        ensures NeverStale(After(Initial(file[0]), steps))
      {
        SteadySoFar(After(Initial(file[0]), steps).file, file);
        SteadyIsNeverStale(file[0], steps);
      }
    } else {
      var steps := UnsteadyGoesStale(file);
    }
  }

  /** Versions that never come back make a file steady. */
  lemma FreshVersionsAreSteady(file: seq<File>)
    requires forall i, m :: 0 <= i < m < |file| ==> file[i].version != file[m].version
    ensures Steady(file)
  {
  }

  /** A file removed, written and removed again is not: having no file is a version that comes back. */
  lemma RemovedTwiceIsUnsteady(version: int, users: Users)
    requires users != map[]
    ensures !Steady([File(None, map[]), File(Some(version), users), File(None, map[])])
  {
    var file := [File(None, map[]), File(Some(version), users), File(None, map[])];
    assert file[0].version == file[2].version && file[1].users != file[2].users;
  }
}
