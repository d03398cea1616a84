/**
 The clients file, oauth_clients.json (`_change_clients` and what is built on it, `read_clients`,
 `file_lock`, `write_json_file`), shared by processes.

 A process steps through a change one file operation at a time, and may raise or be killed at any of
 them; others read without the lock. The log is what was committed, in order. Tickets number the
 times the lock was taken.
 */
module ClientsFile {
  import opened Wrappers

  datatype Record = Record(name: string, confidential: bool, redirectUris: seq<string>, allowedRoles: seq<string>,
                           registered: string, created: string, lastUsed: Option<string>)

  type Clients = map<string, Record>

  datatype Change =
    | AddClient(client: string, record: Record)
    | SetRedirectUris(client: string, uris: seq<string>)
    | SetAllowedRoles(client: string, roles: seq<string>)
    | RemoveClient(client: string)
    | RecordUse(used: map<string, string>)

  /** What a change makes of the clients, None where it raises. */
  function Apply(change: Change, clients: Clients): Option<Clients> {
    match change
    case AddClient(c, record) => if c in clients then None else Some(clients[c := record])
    case SetRedirectUris(c, uris) =>
      if c !in clients then None else Some(clients[c := clients[c].(redirectUris := uris)])
    case SetAllowedRoles(c, roles) =>
      if c !in clients then None else Some(clients[c := clients[c].(allowedRoles := roles)])
    case RemoveClient(c) => if c !in clients then None else Some(clients - {c})
    case RecordUse(used) =>
      Some(map c | c in clients :: if c in used then clients[c].(lastUsed := Some(used[c])) else clients[c])
  }

  /** Whether a change says something of a client. */
  predicate Names(change: Change, client: string) {
    match change
    case AddClient(c, _) => c == client
    case SetRedirectUris(c, _) => c == client
    case SetAllowedRoles(c, _) => c == client
    case RemoveClient(c) => c == client
    case RecordUse(used) => client in used
  }

  /** The two are the same clients, whose records agree but where a change names them. */
  ghost predicate SameButNamed(change: Change, before: Clients, after: Clients) {
    && (forall c :: c in after <==> c in before)
    && (forall c :: c in before && !Names(change, c) ==> after[c] == before[c])
  }

  /** Adding a client files exactly its record, unless there is one of its name. */
  lemma AddingFiles(client: string, record: Record, clients: Clients)
    ensures var after := Apply(AddClient(client, record), clients);
            && (after.None? <==> client in clients)
            && (after.Some? ==>
                  && (forall c :: c in after.value <==> c == client || c in clients)
                  && after.value[client] == record
                  && forall c :: c in clients ==> after.value[c] == clients[c])
  {
  }

  /** Setting the redirect URIs or the roles of a client changes nothing else, of it or of others. */
  lemma SettingChangesOneField(client: string, values: seq<string>, clients: Clients)
    ensures var after := Apply(SetRedirectUris(client, values), clients);
            && (after.Some? <==> client in clients)
            && (after.Some? ==>
                  SameButNamed(SetRedirectUris(client, values), clients, after.value)
                  && after.value[client] == clients[client].(redirectUris := values))
    ensures var after := Apply(SetAllowedRoles(client, values), clients);
            && (after.Some? <==> client in clients)
            && (after.Some? ==>
                  SameButNamed(SetAllowedRoles(client, values), clients, after.value)
                  && after.value[client] == clients[client].(allowedRoles := values))
  {
  }

  /** Removing a client takes out exactly that one. */
  lemma RemovingTakesOne(client: string, clients: Clients)
    ensures var after := Apply(RemoveClient(client), clients);
            && (after.Some? <==> client in clients)
            && (after.Some? ==>
                  && (forall c :: c in after.value <==> c in clients && c != client)
                  && forall c :: c in after.value ==> after.value[c] == clients[c])
  {
  }

  /** Recording uses keeps every client, and sets when each one named was last used and nothing else. */
  lemma RecordingSetsLastUse(used: map<string, string>, clients: Clients)
    ensures var after := Apply(RecordUse(used), clients);
            && after.Some? && SameButNamed(RecordUse(used), clients, after.value)
            && forall c :: c in clients && c in used ==> after.value[c] == clients[c].(lastUsed := Some(used[c]))
  {
  }

  // --- The file, the lock and the processes -----------------------------------------------------------

  datatype File = Absent | Holds(clients: Clients) | Unreadable

  function ClientsOf(file: File): Option<Clients> {
    match file
    case Absent => Some(map[])
    case Holds(clients) => Some(clients)
    case Unreadable => None
  }

  /** The temporary file a new version is written to first. */
  datatype Temporary = NoFile | Partial | Whole(clients: Clients)

  datatype Committed = Committed(change: Change, ticket: nat)

  datatype Pc =
    | Waiting(change: Change)
    | Locked(change: Change, ticket: nat)
    | HasRead(change: Change, ticket: nat, clients: Clients)
    | Changed(change: Change, ticket: nat, clients: Clients)
    | Writing(change: Change, ticket: nat, clients: Clients)
    | Written(change: Change, ticket: nat, clients: Clients)
    | Replaced(change: Change, ticket: nat)
    | Succeeded(change: Change, ticket: nat)
    | Raised(change: Change, ticket: nat)
    | Killed
    | Reading(start: nat, at: nat, file: File)
    | Answered(start: nat, at: nat, end: nat, answer: Option<Clients>)

  datatype State = State(file: File, temporary: Temporary, lock: Option<nat>, tickets: nat,
                         log: seq<Committed>, processes: map<nat, Pc>)

  predicate InSection(p: Pc) {
    p.Locked? || p.HasRead? || p.Changed? || p.Writing? || p.Written? || p.Replaced?
  }

  datatype Step =
    | Start(p: nat, change: Change)
    | Acquire(p: nat)
    | Read(p: nat)
    | Compute(p: nat)
    | OpenTemporary(p: nat)
    | FillTemporary(p: nat)
    | Replace(p: nat)
    | Release(p: nat)
    | Raise(p: nat)
    | Kill(p: nat)
    | OpenToRead(p: nat)
    | Answer(p: nat)

  predicate Can(s: State, step: Step) {
    match step
    case Start(p, _) => p !in s.processes
    case OpenToRead(p) => p !in s.processes
    case Acquire(p) => p in s.processes && s.processes[p].Waiting? && s.lock.None?
    case Read(p) => p in s.processes && s.processes[p].Locked?
    case Compute(p) => p in s.processes && s.processes[p].HasRead?
    case OpenTemporary(p) => p in s.processes && s.processes[p].Changed?
    case FillTemporary(p) => p in s.processes && s.processes[p].Writing?
    case Replace(p) => p in s.processes && s.processes[p].Written?
    case Release(p) => p in s.processes && s.processes[p].Replaced?
    case Raise(p) => p in s.processes && InSection(s.processes[p]) && !s.processes[p].Replaced?
    case Kill(p) => p in s.processes
    case Answer(p) => p in s.processes && s.processes[p].Reading?
  }

  function Turn(s: State, p: nat, pc: Pc): State {
    s.(processes := s.processes[p := pc])
  }

  function Unlocked(s: State, p: nat): State {
    if s.lock == Some(p) then s.(lock := None) else s
  }

  function Do(s: State, step: Step): State
    requires Can(s, step)
  {
    match step
    case Start(p, change) => Turn(s, p, Waiting(change))
    case Acquire(p) => Turn(s, p, Locked(s.processes[p].change, s.tickets)).(lock := Some(p), tickets := s.tickets + 1)
    case Read(p) =>
      var pc := s.processes[p];
      if ClientsOf(s.file).None? then Turn(Unlocked(s, p), p, Raised(pc.change, pc.ticket))
      else Turn(s, p, HasRead(pc.change, pc.ticket, ClientsOf(s.file).value))
    case Compute(p) =>
      var pc := s.processes[p];
      var changed := Apply(pc.change, pc.clients);
      if changed.None? then Turn(Unlocked(s, p), p, Raised(pc.change, pc.ticket))
      else Turn(s, p, Changed(pc.change, pc.ticket, changed.value))
    case OpenTemporary(p) =>
      var pc := s.processes[p];
      Turn(s, p, Writing(pc.change, pc.ticket, pc.clients)).(temporary := Partial)
    case FillTemporary(p) =>
      var pc := s.processes[p];
      Turn(s, p, Written(pc.change, pc.ticket, pc.clients)).(temporary := Whole(pc.clients))
    case Replace(p) =>
      var pc := s.processes[p];
      Turn(s, p, Replaced(pc.change, pc.ticket)).(
        file := if s.temporary.Whole? then Holds(s.temporary.clients) else Unreadable,
        temporary := NoFile, log := s.log + [Committed(pc.change, pc.ticket)])
    case Release(p) => Turn(Unlocked(s, p), p, Succeeded(s.processes[p].change, s.processes[p].ticket))
    case Raise(p) => Turn(Unlocked(s, p), p, Raised(s.processes[p].change, s.processes[p].ticket))
    case Kill(p) => Turn(Unlocked(s, p), p, Killed)
    case OpenToRead(p) => Turn(s, p, Reading(|s.log|, |s.log|, s.file))
    case Answer(p) =>
      var pc := s.processes[p];
      Turn(s, p, Answered(pc.start, pc.at, |s.log|, ClientsOf(pc.file)))
  }

  predicate Possible(s: State, steps: seq<Step>)
    decreases |steps|
  {
    steps == [] || (Can(s, steps[0]) && Possible(Do(s, steps[0]), steps[1..]))
  }

  function After(s: State, steps: seq<Step>): State
    requires Possible(s, steps)
    decreases |steps|
  {
    if steps == [] then s else After(Do(s, steps[0]), steps[1..])
  }

  function Initial(file: File): State {
    State(file, NoFile, None, 0, [], map[])
  }

  // --- One at a time ------------------------------------------------------------------------------------

  /** The clients after changes made one at a time, None where one of them would have raised. */
  function Serial(clients: Clients, log: seq<Committed>): Option<Clients> {
    if log == [] then Some(clients)
    else
      match Serial(clients, log[..|log| - 1])
      case None => None
      case Some(before) => Apply(log[|log| - 1].change, before)
  }

  /** The file after the changes of a log. */
  ghost predicate IsVersion(first: File, log: seq<Committed>, file: File) {
    if log == [] then file == first
    else ClientsOf(first).Some? && file.Holds? && Serial(ClientsOf(first).value, log) == Some(file.clients)
  }

  lemma VersionHasClients(first: File, log: seq<Committed>, file: File)
    requires IsVersion(first, log, file) && ClientsOf(file).Some?
    ensures ClientsOf(first).Some? && Serial(ClientsOf(first).value, log) == ClientsOf(file)
  {
  }

  lemma NextVersion(first: File, log: seq<Committed>, file: File, more: Committed, clients: Clients)
    requires IsVersion(first, log, file) && ClientsOf(file).Some?
    requires Apply(more.change, ClientsOf(file).value) == Some(clients)
    ensures IsVersion(first, log + [more], Holds(clients))
  {
    hide Apply;
    VersionHasClients(first, log, file);
    assert (log + [more])[..|log|] == log;
  }

  // --- What every step keeps ----------------------------------------------------------------------------

  /** Each lock-holder's view is still current. */
  ghost predicate ProcessOk(first: File, s: State, p: nat, pc: Pc) {
    && (InSection(pc) <==> s.lock == Some(p))
    && (InSection(pc) ==> pc.ticket + 1 == s.tickets)
    && (InSection(pc) && !pc.Replaced? ==> forall e :: e in s.log ==> e.ticket < pc.ticket)
    && (pc.HasRead? ==> ClientsOf(s.file) == Some(pc.clients))
    && (pc.Changed? || pc.Writing? || pc.Written? ==>
          ClientsOf(s.file).Some? && Apply(pc.change, ClientsOf(s.file).value) == Some(pc.clients))
    && (pc.Written? ==> s.temporary == Whole(pc.clients))
    && (pc.Replaced? || pc.Succeeded? ==> Committed(pc.change, pc.ticket) in s.log)
    && (pc.Raised? ==> pc.ticket < s.tickets && (s.lock.Some? ==> pc.ticket + 1 < s.tickets)
                       && forall e :: e in s.log ==> e.ticket != pc.ticket)
    && (pc.Reading? ==> pc.start <= pc.at <= |s.log| && IsVersion(first, s.log[..pc.at], pc.file))
    && (pc.Answered? ==>
          pc.start <= pc.at <= pc.end <= |s.log|
          && exists file :: IsVersion(first, s.log[..pc.at], file) && pc.answer == ClientsOf(file))
  }

  /** In the order the lock was taken. */
  ghost predicate InOrder(log: seq<Committed>) {
    forall i, j :: 0 <= i < j < |log| ==> log[i].ticket < log[j].ticket
  }

  ghost predicate Inv(first: File, s: State) {
    && IsVersion(first, s.log, s.file)
    && InOrder(s.log) && (forall e :: e in s.log ==> e.ticket < s.tickets)
    && (s.lock.Some? ==> s.lock.value in s.processes)
    && (forall p :: p in s.processes ==> ProcessOk(first, s, p, s.processes[p]))
  }

  function Mover(step: Step): nat {
    step.p
  }

  /** What the steps of others may change. */
  lemma OthersStayOk(first: File, s: State, step: Step, q: nat)
    requires Inv(first, s) && Can(s, step) && q in s.processes && q != Mover(step)
    ensures ProcessOk(first, Do(s, step), q, Do(s, step).processes[q])
  {
    hide IsVersion, Apply, InOrder;
    var p, t := Mover(step), Do(s, step);
    var pc := s.processes[q];
    assert t.processes[q] == pc && ProcessOk(first, s, q, pc);
    if p in s.processes { assert ProcessOk(first, s, p, s.processes[p]); }
    if pc.Reading? || pc.Answered? {
      assert t.log[..pc.at] == s.log[..pc.at];
    }
  }

  lemma ReaderStaysOk(first: File, s: State, step: Step)
    requires Inv(first, s) && Can(s, step) && (step.OpenToRead? || step.Answer?)
    ensures ProcessOk(first, Do(s, step), step.p, Do(s, step).processes[step.p])
  {
    hide IsVersion, Apply, InOrder;
    assert s.log[..|s.log|] == s.log;
    if step.Answer? { assert ProcessOk(first, s, step.p, s.processes[step.p]); }
  }

  lemma LeaverStaysOk(first: File, s: State, step: Step)
    requires Inv(first, s) && Can(s, step) && (step.Release? || step.Raise? || step.Kill?)
    ensures ProcessOk(first, Do(s, step), step.p, Do(s, step).processes[step.p])
  {
    hide IsVersion, Apply, InOrder;
    assert ProcessOk(first, s, step.p, s.processes[step.p]);
  }

  lemma ReplacerStaysOk(first: File, s: State, p: nat)
    requires Inv(first, s) && Can(s, Replace(p))
    ensures ProcessOk(first, Do(s, Replace(p)), p, Do(s, Replace(p)).processes[p])
  {
    hide IsVersion, Apply, InOrder;
    assert ProcessOk(first, s, p, s.processes[p]);
    var t, committed := Do(s, Replace(p)), Committed(s.processes[p].change, s.processes[p].ticket);
    assert t.log[|s.log|] == committed;
  }

  /** The mover itself. */
  lemma MoverStaysOk(first: File, s: State, step: Step)
    requires Inv(first, s) && Can(s, step)
    ensures ProcessOk(first, Do(s, step), Mover(step), Do(s, step).processes[Mover(step)])
  {
    hide IsVersion, Apply, InOrder;
    var p := Mover(step);
    if step.OpenToRead? || step.Answer? {
      ReaderStaysOk(first, s, step);
    } else if step.Release? || step.Raise? || step.Kill? {
      LeaverStaysOk(first, s, step);
    } else if step.Replace? {
      ReplacerStaysOk(first, s, p);
    } else if p in s.processes {
      assert ProcessOk(first, s, p, s.processes[p]);
    }
  }

  lemma SharedStaysOk(first: File, s: State, step: Step)
    requires Inv(first, s) && Can(s, step)
    ensures var t := Do(s, step);
            IsVersion(first, t.log, t.file) && InOrder(t.log) && (forall e :: e in t.log ==> e.ticket < t.tickets)
            && (t.lock.Some? ==> t.lock.value in t.processes)
  {
    hide IsVersion, Apply;
    var p := Mover(step);
    if step.Replace? {
      var pc := s.processes[p];
      assert ProcessOk(first, s, p, pc);
      NextVersion(first, s.log, s.file, Committed(pc.change, pc.ticket), pc.clients);
    }
  }

  lemma StepKeepsInv(first: File, s: State, step: Step)
    requires Inv(first, s) && Can(s, step)
    ensures Inv(first, Do(s, step))
  {
    var t := Do(s, step);
    SharedStaysOk(first, s, step);
    MoverStaysOk(first, s, step);
    forall q | q in s.processes && q != Mover(step) ensures ProcessOk(first, t, q, t.processes[q]) {
      OthersStayOk(first, s, step, q);
    }
    OnlyMoverIsNew(s, step);
  }

  lemma OnlyMoverIsNew(s: State, step: Step)
    requires Can(s, step)
    ensures Do(s, step).processes.Keys == s.processes.Keys + {Mover(step)}
  {
  }

  lemma {:induction false} RunKeepsInv(first: File, s: State, steps: seq<Step>)
    requires Inv(first, s) && Possible(s, steps)
    ensures Inv(first, After(s, steps))
    decreases |steps|
  {
    hide Inv, Can, Do;
    if steps != [] {
      StepKeepsInv(first, s, steps[0]);
      RunKeepsInv(first, Do(s, steps[0]), steps[1..]);
    }
  }

  // --- What it comes to -----------------------------------------------------------------------------------

  /** In every run the file is what the committed changes make of it one at a time, in the order in
      which the lock was taken for them. */
  lemma ChangesAreSerial(first: File, steps: seq<Step>)
    requires Possible(Initial(first), steps)
    ensures var s := After(Initial(first), steps); IsVersion(first, s.log, s.file) && InOrder(s.log)
  {
    hide After, Possible;
    assert Inv(first, Initial(first));
    RunKeepsInv(first, Initial(first), steps);
  }

  /** A change is in the log when it has succeeded, and never when it has raised. */
  lemma LoggedExactlyWhenSucceeded(first: File, steps: seq<Step>, p: nat)
    requires Possible(Initial(first), steps) && p in After(Initial(first), steps).processes
    ensures var s := After(Initial(first), steps); var pc := s.processes[p];
            && (pc.Succeeded? ==> Committed(pc.change, pc.ticket) in s.log)
            && (pc.Raised? ==> forall e :: e in s.log ==> e.ticket != pc.ticket)
  {
    hide After, Possible, IsVersion, InOrder;
    assert Inv(first, Initial(first)) by { VersionOfNothing(first); }
    RunKeepsInv(first, Initial(first), steps);
    var s := After(Initial(first), steps);
    assert ProcessOk(first, s, p, s.processes[p]);
  }

  lemma VersionOfNothing(first: File)
    ensures IsVersion(first, [], first) && InOrder([])
  {
  }

  lemma ReplacingApplies(first: File, s: State, p: nat)
    requires Inv(first, s) && Can(s, Replace(p))
    ensures ClientsOf(s.file).Some?
            && Apply(s.processes[p].change, ClientsOf(s.file).value).Some?
            && Do(s, Replace(p)).file == Holds(Apply(s.processes[p].change, ClientsOf(s.file).value).value)
  {
    hide IsVersion, Apply, InOrder;
    assert ProcessOk(first, s, p, s.processes[p]);
  }

  /** After every run, a step writes the file only by replacing it, and then with exactly the change
      applied to the clients that are in it: nothing another process wrote is lost, and a change that
      raises writes nothing. */
  lemma OnlyReplacingWrites(first: File, steps: seq<Step>, step: Step)
    requires Possible(Initial(first), steps) && Can(After(Initial(first), steps), step)
    ensures var s := After(Initial(first), steps);
            if step.Replace? then
              ClientsOf(s.file).Some?
              && Apply(s.processes[step.p].change, ClientsOf(s.file).value).Some?
              && Do(s, step).file == Holds(Apply(s.processes[step.p].change, ClientsOf(s.file).value).value)
            else Do(s, step).file == s.file && Do(s, step).log == s.log
  {
    hide After, Possible, IsVersion, Apply, InOrder;
    assert Inv(first, Initial(first)) by { VersionOfNothing(first); }
    RunKeepsInv(first, Initial(first), steps);
    if step.Replace? { ReplacingApplies(first, After(Initial(first), steps), step.p); }
  }

  /** A reader is answered with a whole version, one that was current between its start and its end. */
  lemma ReadersSeeWholeVersions(first: File, steps: seq<Step>, p: nat)
    requires Possible(Initial(first), steps) && p in After(Initial(first), steps).processes
    ensures var s := After(Initial(first), steps); var pc := s.processes[p];
            pc.Answered? ==>
              pc.start <= pc.at <= pc.end <= |s.log|
              && exists file :: IsVersion(first, s.log[..pc.at], file) && pc.answer == ClientsOf(file)
  {
    hide After, Possible, IsVersion, InOrder;
    assert Inv(first, Initial(first)) by { VersionOfNothing(first); }
    RunKeepsInv(first, Initial(first), steps);
    var s := After(Initial(first), steps);
    assert ProcessOk(first, s, p, s.processes[p]);
  }

  predicate Adds(change: Change, client: string) {
    change.AddClient? && change.client == client
  }

  /** Only adding a client makes it be there; recording its use does not. */
  lemma OnlyAddingBrings(change: Change, clients: Clients, client: string)
    requires client !in clients && !(change.AddClient? && change.client == client)
    ensures Apply(change, clients).Some? ==> client !in Apply(change, clients).value
  {
  }

  lemma {:induction false} StaysRemoved(clients: Clients, log: seq<Committed>, k: nat, client: string)
    requires k <= |log| && Serial(clients, log).Some?
    requires Serial(clients, log[..k]).Some? ==> client !in Serial(clients, log[..k]).value
    requires forall i :: k <= i < |log| ==> !Adds(log[i].change, client)
    ensures client !in Serial(clients, log).value
    decreases |log|
  {
    hide Apply;
    if k == |log| {
      assert log[..k] == log;
    } else {
      var init := log[..|log| - 1];
      assert init[..k] == log[..k];
      StaysRemoved(clients, init, k, client);
      OnlyAddingBrings(log[|log| - 1].change, Serial(clients, init).value, client);
    }
  }

  lemma {:induction false} SerialPrefix(clients: Clients, log: seq<Committed>, k: nat)
    requires k <= |log| && Serial(clients, log).Some?
    ensures Serial(clients, log[..k]).Some?
    decreases |log|
  {
    hide Apply;
    if k == |log| {
      assert log[..k] == log;
    } else {
      assert log[..|log| - 1][..k] == log[..k];
      SerialPrefix(clients, log[..|log| - 1], k);
    }
  }

  /** A client no change names keeps its record, and one no change removes stays. */
  lemma ChangeKeepsOthers(change: Change, clients: Clients, client: string)
    requires Apply(change, clients).Some? && client in clients
    ensures change != RemoveClient(client) ==> client in Apply(change, clients).value
    ensures !Names(change, client) ==>
              client in Apply(change, clients).value && Apply(change, clients).value[client] == clients[client]
  {
    match change
    case AddClient(c, record) => AddingFiles(c, record, clients);
    case SetRedirectUris(c, uris) => SettingChangesOneField(c, uris, clients);
    case SetAllowedRoles(c, roles) => SettingChangesOneField(c, roles, clients);
    case RemoveClient(c) => RemovingTakesOne(c, clients);
    case RecordUse(used) => RecordingSetsLastUse(used, clients);
  }

  lemma {:induction false} StaysThere(clients: Clients, log: seq<Committed>, k: nat, client: string)
    requires k <= |log| && Serial(clients, log).Some? && Serial(clients, log[..k]).Some?
    requires client in Serial(clients, log[..k]).value
    requires forall i :: k <= i < |log| ==> log[i].change != RemoveClient(client)
    ensures client in Serial(clients, log).value
    ensures (forall i :: k <= i < |log| ==> !Names(log[i].change, client)) ==>
              Serial(clients, log).value[client] == Serial(clients, log[..k]).value[client]
    decreases |log|
  {
    hide Apply, Names;
    if k == |log| {
      assert log[..k] == log;
    } else {
      var init := log[..|log| - 1];
      assert init[..k] == log[..k];
      StaysThere(clients, init, k, client);
      ChangeKeepsOthers(log[|log| - 1].change, Serial(clients, init).value, client);
    }
  }

  lemma {:induction false} LogGrows(s: State, steps: seq<Step>)
    requires Possible(s, steps)
    ensures s.log <= After(s, steps).log
    decreases |steps|
  {
    hide Can;
    if steps != [] { LogGrows(Do(s, steps[0]), steps[1..]); }
  }

  lemma {:induction false} AfterBoth(s: State, a: seq<Step>, b: seq<Step>)
    requires Possible(s, a) && Possible(After(s, a), b)
    ensures Possible(s, a + b) && After(s, a + b) == After(After(s, a), b)
    decreases |a|
  {
    hide Can, Do;
    if a == [] {
      assert a + b == b;
    } else {
      assert (a + b)[1..] == a[1..] + b;
      AfterBoth(Do(s, a[0]), a[1..], b);
    }
  }

  /** Over every run, a client in the file stays there unless a committed change removes that very
      client, and its record stays as it is unless a committed change names it: whatever others write,
      raise at or are killed in, nothing of it is lost. */
  lemma ClientStays(first: File, before: seq<Step>, steps: seq<Step>, client: string)
    requires Possible(Initial(first), before) && Possible(After(Initial(first), before), steps)
    requires var s := After(Initial(first), before); ClientsOf(s.file).Some? && client in ClientsOf(s.file).value
    ensures var s, t := After(Initial(first), before), After(After(Initial(first), before), steps);
            && s.log <= t.log
            && var more := t.log[|s.log|..];
               ((forall e :: e in more ==> e.change != RemoveClient(client)) ==>
                  && ClientsOf(t.file).Some? && client in ClientsOf(t.file).value
                  && ((forall e :: e in more ==> !Names(e.change, client)) ==>
                        ClientsOf(t.file).value[client] == ClientsOf(s.file).value[client]))
  {
    hide After, Possible, Apply, Names;
    var s, t := After(Initial(first), before), After(After(Initial(first), before), steps);
    LogGrows(s, steps);
    AfterBoth(Initial(first), before, steps);
    ChangesAreSerial(first, before);
    ChangesAreSerial(first, before + steps);
    VersionHasClients(first, s.log, s.file);
    var clients, k := ClientsOf(first).value, |s.log|;
    if forall e :: e in t.log[k..] ==> e.change != RemoveClient(client) {
      assert t.log[..k] == s.log;
      LaterVersion(first, s.log, t.log, t.file);
      forall i | k <= i < |t.log| ensures t.log[i].change != RemoveClient(client) { assert t.log[i] in t.log[k..]; }
      StaysThere(clients, t.log, k, client);
      if forall e :: e in t.log[k..] ==> !Names(e.change, client) {
        forall i | k <= i < |t.log| ensures !Names(t.log[i].change, client) { assert t.log[i] in t.log[k..]; }
      }
    }
  }

  lemma LaterVersion(first: File, log: seq<Committed>, later: seq<Committed>, file: File)
    requires IsVersion(first, later, file) && log <= later && ClientsOf(first).Some?
    ensures ClientsOf(file).Some? && Serial(ClientsOf(first).value, later) == ClientsOf(file)
  {
    hide Apply;
  }

  lemma OneStep(s: State, step: Step, steps: seq<Step>)
    requires Can(s, step) && Possible(Do(s, step), steps)
    ensures Possible(s, [step] + steps) && After(s, [step] + steps) == After(Do(s, step), steps)
  {
    hide Can, Do;
    assert ([step] + steps)[1..] == steps;
  }

  /** Writing the version a process has made and releasing the lock, with nothing going wrong. */
  lemma WritingCommits(s: State, p: nat, change: Change, ticket: nat, clients: Clients)
    requires p in s.processes && s.processes[p] == Changed(change, ticket, clients) && s.lock == Some(p)
    ensures var steps := [OpenTemporary(p), FillTemporary(p), Replace(p), Release(p)];
            && Possible(s, steps)
            && var t := After(s, steps);
               && t.file == Holds(clients) && t.lock == None && t.temporary == NoFile && t.tickets == s.tickets
               && t.log == s.log + [Committed(change, ticket)]
               && t.processes == s.processes[p := Succeeded(change, ticket)]
  {
    hide Possible, After;
    var a := Do(s, OpenTemporary(p));
    var b := Do(a, FillTemporary(p));
    var c := Do(b, Replace(p));
    var d := Do(c, Release(p));
    assert d.processes == s.processes[p := Succeeded(change, ticket)];
    FourSteps(s, p, a, b, c, d);
  }

  lemma FourSteps(s: State, p: nat, a: State, b: State, c: State, d: State)
    requires Can(s, OpenTemporary(p)) && a == Do(s, OpenTemporary(p))
    requires Can(a, FillTemporary(p)) && b == Do(a, FillTemporary(p))
    requires Can(b, Replace(p)) && c == Do(b, Replace(p)) && Can(c, Release(p)) && d == Do(c, Release(p))
    ensures Possible(s, [OpenTemporary(p), FillTemporary(p), Replace(p), Release(p)])
            && After(s, [OpenTemporary(p), FillTemporary(p), Replace(p), Release(p)]) == d
  {
    hide Can, Do;
    OneStep(c, Release(p), []);
    OneStep(b, Replace(p), [Release(p)]);
    OneStep(a, FillTemporary(p), [Replace(p), Release(p)]);
    OneStep(s, OpenTemporary(p), [FillTemporary(p), Replace(p), Release(p)]);
    assert [OpenTemporary(p)] + [FillTemporary(p), Replace(p), Release(p)]
           == [OpenTemporary(p), FillTemporary(p), Replace(p), Release(p)];
    assert [FillTemporary(p)] + [Replace(p), Release(p)] == [FillTemporary(p), Replace(p), Release(p)];
    assert [Replace(p)] + [Release(p)] == [Replace(p), Release(p)] && [Release(p)] + [] == [Release(p)];
  }

  /** A change nothing disturbs is committed, and its client is told so, exactly when the file can be read -
      no file holds no clients - and the change is one of what it holds; otherwise it raises, and the file and
      the log stay as they are. Either way the lock is free again, and no other process was touched. */
  lemma UndisturbedChange(s: State, p: nat, change: Change)
    requires p in s.processes && s.processes[p] == Waiting(change) && s.lock == None
    ensures s.file == Unreadable ==>
              && Possible(s, [Acquire(p), Read(p)])
              && var t := After(s, [Acquire(p), Read(p)]);
                 t.processes == s.processes[p := Raised(change, s.tickets)] && t.lock == None
                 && t.file == s.file && t.log == s.log
    ensures s.file != Unreadable ==>
              var clients := if s.file == Absent then map[] else s.file.clients;
              var changed := Apply(change, clients);
              var steps := [Acquire(p), Read(p), Compute(p)]
                           + if changed.None? then []
                             else [OpenTemporary(p), FillTemporary(p), Replace(p), Release(p)];
              && Possible(s, steps)
              && var t := After(s, steps);
                 && t.lock == None
                 && (changed.None? ==> t.processes == s.processes[p := Raised(change, s.tickets)]
                                       && t.file == s.file && t.log == s.log)
                 && (changed.Some? ==> t.processes == s.processes[p := Succeeded(change, s.tickets)]
                                       && t.file == Holds(changed.value)
                                       && t.log == s.log + [Committed(change, s.tickets)])
  {
    hide Apply;
    var a := Do(s, Acquire(p));
    var b := Do(a, Read(p));
    if s.file == Unreadable {
      assert b.processes == s.processes[p := Raised(change, s.tickets)];
      OneStep(a, Read(p), []);
      OneStep(s, Acquire(p), [Read(p)]);
      assert [Acquire(p)] + [Read(p)] == [Acquire(p), Read(p)] && [Read(p)] + [] == [Read(p)];
    } else {
      var clients := if s.file == Absent then map[] else s.file.clients;
      var c := Do(b, Compute(p));
      var rest := if Apply(change, clients).None? then []
                  else [OpenTemporary(p), FillTemporary(p), Replace(p), Release(p)];
      if Apply(change, clients).Some? {
        WritingCommits(c, p, change, s.tickets, Apply(change, clients).value);
        assert c.processes[p := Succeeded(change, s.tickets)] == s.processes[p := Succeeded(change, s.tickets)];
      } else {
        assert c.processes == s.processes[p := Raised(change, s.tickets)];
      }
      ThreeSteps(s, p, a, b, c, rest);
    }
  }

  lemma ThreeSteps(s: State, p: nat, a: State, b: State, c: State, rest: seq<Step>)
    requires Can(s, Acquire(p)) && a == Do(s, Acquire(p)) && Can(a, Read(p)) && b == Do(a, Read(p))
    requires Can(b, Compute(p)) && c == Do(b, Compute(p)) && Possible(c, rest)
    ensures Possible(s, [Acquire(p), Read(p), Compute(p)] + rest)
            && After(s, [Acquire(p), Read(p), Compute(p)] + rest) == After(c, rest)
  {
    hide Can, Do;
    OneStep(b, Compute(p), rest);
    OneStep(a, Read(p), [Compute(p)] + rest);
    OneStep(s, Acquire(p), [Read(p)] + ([Compute(p)] + rest));
    assert [Acquire(p)] + ([Read(p)] + ([Compute(p)] + rest)) == [Acquire(p), Read(p), Compute(p)] + rest;
  }

  /** Once a client's removal has succeeded, it is not in the file until it is added again: no
      process recording its use brings it back, whenever it began. */
  lemma RemovedClientStaysRemoved(first: File, steps: seq<Step>, p: nat)
    requires Possible(Initial(first), steps)
    requires var s := After(Initial(first), steps);
             && p in s.processes && s.processes[p].Succeeded? && s.processes[p].change.RemoveClient?
             && forall e :: e in s.log && e.ticket > s.processes[p].ticket ==>
                  !(e.change.AddClient? && e.change.client == s.processes[p].change.client)
    ensures var s := After(Initial(first), steps);
            s.file.Holds? && s.processes[p].change.client !in s.file.clients
  {
    hide After, Possible, Apply;
    ChangesAreSerial(first, steps);
    LoggedExactlyWhenSucceeded(first, steps, p);
    var s := After(Initial(first), steps);
    RemovalInLog(ClientsOf(first).value, s.log, Committed(s.processes[p].change, s.processes[p].ticket));
  }

  lemma RemovalInLog(clients: Clients, log: seq<Committed>, e: Committed)
    requires e in log && e.change.RemoveClient? && InOrder(log) && Serial(clients, log).Some?
    requires forall later :: later in log && later.ticket > e.ticket ==> !Adds(later.change, e.change.client)
    ensures e.change.client !in Serial(clients, log).value
  {
    var k :| 0 <= k < |log| && log[k] == e;
    SerialPrefix(clients, log, k + 1);
    RemovedAt(clients, log, k);
    forall i | k + 1 <= i < |log| ensures !Adds(log[i].change, e.change.client) {
      assert log[i] in log && log[k].ticket < log[i].ticket;
    }
    StaysRemoved(clients, log, k + 1, e.change.client);
  }

  lemma RemovedAt(clients: Clients, log: seq<Committed>, k: nat)
    requires k < |log| && log[k].change.RemoveClient? && Serial(clients, log[..k + 1]).Some?
    ensures log[k].change.client !in Serial(clients, log[..k + 1]).value
  {
    assert log[..k + 1][..k] == log[..k];
  }
}
