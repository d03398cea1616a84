/** Two runs, event by event, that show the exceptions of the connection cache do happen: a session
    nobody has, and a restart that is not reported. */
module ConnectionWitness {
  import opened Wrappers
  import opened ConnectionTable
  import opened ConnectionCache
  import opened ConnectionInvariants
  import opened ConnectionSafety
  import opened ConnectionReporting

  const ALICE := Client(None, Some("grant:1"), Some("alice"))
  const SHOP := Card("mariadb://shop", "mcp", ALICE, None, 0)

  /** Two threads at rest, one configured connection, and sessions that are idle at once. */
  function Start(): State {
    State(Settings(1, 1, 1, 1, 0), 0, map[], {}, map[0 := Thread(Idle, [], None, 0), 1 := Thread(Idle, [], None, 0)],
          {KeyOf(SHOP)}, map[], map[], map[], map[])
  }

  lemma {:induction false} Extend(s: State, events: seq<Event>, e: Event)
    requires Possible(s, events) && Can(After(s, events), e)
    ensures Possible(s, events + [e]) && After(s, events + [e]) == Next(After(s, events), e)
    decreases |events|
  {
    hide Can, Next;
    if events == [] {
      assert events + [e] == [e];
      assert [e][1..] == [];
      assert After(Next(s, e), []) == Next(s, e);
    } else {
      assert (events + [e])[1..] == events[1..] + [e];
      Extend(Next(s, events[0]), events[1..], e);
    }
  }

  ghost predicate Leads(events: seq<Event>, s: State) {
    Possible(Start(), events) && After(Start(), events) == s
  }

  lemma EmptyLeads()
    ensures Leads([], Start())
  {
  }

  lemma LeadsOn(events: seq<Event>, s: State, e: Event) returns (more: seq<Event>)
    requires Leads(events, s) && Can(s, e)
    ensures more == events + [e] && Leads(more, Next(s, e))
  {
    hide Can, Next, Possible, After;
    Extend(Start(), events, e);
    more := events + [e];
  }

  lemma ClaimInStart(s: State)
    requires s == DoBeginConnect(Start(), 0, 0, SHOP)
    ensures CanClaimSlot(s, 0, map[]) && HasRoom(s, 0, map[])
  {
    forall scope: Scope ensures CountedUnder(TableOf(s), map[], s.cfg, scope) == {} {
    }
  }

  /** db.connect by thread 0, up to having the connection's lock. */
  lemma ConnectLocks() returns (events: seq<Event>, s: State)
    ensures Leads(events, s)
    ensures s == Start().(conns := map[0 := Conn(SHOP, 0, None, false, false, Some(0), 0, Connecting, None, None)],
                 cache := {0},
                 threads := map[0 := Thread(Open(0, false, Check), [], None, 1), 1 := Thread(Idle, [], None, 0)])
  {
    hide Leads, HasRoom;
    EmptyLeads();
    s := Start();
    events := LeadsOn([], s, Connects(0, BeginConnect(0, SHOP)));
    s := DoBeginConnect(s, 0, 0, SHOP);
    ClaimInStart(s);
    events := LeadsOn(events, s, Connects(0, ClaimSlot(map[])));
    s := DoClaimSlot(s, 0, map[]);
    events := LeadsOn(events, s, Connects(0, LockForConnect));
    s := DoLockForConnect(s, 0);
  }

  /** Thread 0 opens a session, up to setting the role on it. */
  lemma OpensToRole(before: seq<Event>, start: State, use: bool, sid: Sid) returns (events: seq<Event>, s: State)
    requires Leads(before, start) && 0 in start.threads && start.threads[0].pc == Open(0, use, Check)
    requires 0 in start.conns && start.conns[0].card == SHOP && KeyOf(SHOP) in start.secrets && sid !in start.born
    ensures Leads(events, s)
    ensures s == start.(threads := start.threads[0 := start.threads[0].(pc := Open(0, use, Role(sid)))],
                        open := start.open[sid := InHand(0)],
                        born := start.born[sid := Birth(0, 0, start.threads[0].call)])
  {
    hide Leads;
    events := LeadsOn(before, start, Opens(0, CheckConfigured));
    s := DoCheckConfigured(start, 0);
    events := LeadsOn(events, s, Opens(0, ReadPassword(true)));
    s := DoReadPassword(s, 0, true);
    events := LeadsOn(events, s, Opens(0, OpenSession(Some(sid))));
    s := DoOpenSession(s, 0, Some(sid));
  }

  /** A session is leaked: the default role of a user of db.connect cannot be read. */
  lemma ASessionIsLeaked() returns (events: seq<Event>, s: State)
    ensures Initial(Start()) && Leads(events, s)
    ensures LeakedIn(s, 7) && !Accounted(s, 7)
  {
    hide Leads;
    events, s := ConnectLocks();
    events, s := OpensToRole(events, s, false, 7);
    events := LeadsOn(events, s, Opens(0, SetRole(RoleUnreadable)));
    s := DoSetRole(s, 0, RoleUnreadable);
  }

  /** The role is set, and the session is the connection's. */
  lemma Keeps(before: seq<Event>, start: State, use: bool, sid: Sid) returns (events: seq<Event>, s: State)
    requires Leads(before, start) && 0 in start.threads && start.threads[0].pc == Open(0, use, Role(sid))
             && 0 in start.conns
    ensures Leads(events, s)
    ensures s == DoKeepSession(Goto(start, 0, Open(0, use, Keep(sid))), 0)
  {
    hide Leads;
    events := LeadsOn(before, start, Opens(0, SetRole(RoleDone)));
    s := DoSetRole(start, 0, RoleDone);
    events := LeadsOn(events, s, Opens(0, KeepSession));
    s := DoKeepSession(s, 0);
  }

  function Connected(open: map<Sid, Place>, session: Option<Sid>, calls: nat): State {
    Start().(conns := map[0 := Conn(SHOP, 0, session, false, false, None, 0, Handed, None, Some(7))],
    cache := {0}, open := open, born := map[7 := Birth(0, 0, 1)],
    threads := map[0 := Thread(Idle, [], None, 1), 1 := Thread(Idle, [], None, calls)])
  }

  lemma ConnectReturns() returns (events: seq<Event>)
    ensures Leads(events, Connected(map[7 := AtConn(0)], Some(7), 0))
  {
    hide Leads;
    var s: State;
    events, s := ConnectLocks();
    events, s := OpensToRole(events, s, false, 7);
    events, s := Keeps(events, s, false, 7);
    events := LeadsOn(events, s, Ends(0, Finish));
    assert DoFinish(s, 0) == Connected(map[7 := AtConn(0)], Some(7), 0);
  }

  /** The reaper, on thread 1, closes the idle session. */
  lemma ReaperCloses() returns (events: seq<Event>)
    ensures Leads(events, Connected(map[], None, 1))
  {
    hide Leads;
    var s: State;
    events, s := ReaperTakes();
    events := LeadsOn(events, s, Ends(1, CloseIdle));
    s := DoCloseIdle(s, 1);
    events := LeadsOn(events, s, Ends(1, Finish));
    assert DoFinish(s, 1) == Connected(map[], None, 1);
  }

  lemma ReaperBegins() returns (events: seq<Event>, s: State)
    ensures Leads(events, s)
    ensures s == Connected(map[7 := AtConn(0)], Some(7), 1).(
                 threads := map[0 := Thread(Idle, [], None, 1), 1 := Thread(IdlePass, [0], None, 1)])
  {
    hide Leads;
    events := ConnectReturns();
    s := Connected(map[7 := AtConn(0)], Some(7), 0);
    events := LeadsOn(events, s, Ends(1, BeginIdlePass([0])));
    s := Begin(s, 1, IdlePass, [0], None);
  }

  lemma ReaperTakes() returns (events: seq<Event>, s: State)
    ensures Leads(events, s)
    ensures s == Connected(map[7 := InHand(1)], None, 1).(
                 conns := map[0 := Conn(SHOP, 0, None, false, false, Some(1), 0, Handed, None, Some(7))],
                 threads := map[0 := Thread(Idle, [], None, 1), 1 := Thread(IdleShut(0, 7), [], None, 1)])
  {
    hide Leads;
    events, s := ReaperBegins();
    events := LeadsOn(events, s, Ends(1, IdleNext));
    s := DoIdleNext(s, 1);
    assert [0][1..] == [];
  }

  lemma UseLocks() returns (events: seq<Event>, s: State)
    ensures Leads(events, s)
    ensures s == Connected(map[], None, 1).(
                 conns := map[0 := Conn(SHOP, 0, None, false, false, Some(0), 0, Handed, None, Some(7))],
                 threads := map[0 := Thread(Open(0, true, Check), [], None, 2), 1 := Thread(Idle, [], None, 1)])
  {
    hide Leads;
    events := ReaperCloses();
    s := Connected(map[], None, 1);
    events := LeadsOn(events, s, Uses(0, BeginLookup(0, ALICE, false)));
    s := DoBeginLookup(s, 0, 0, ALICE, false);
    events := LeadsOn(events, s, Uses(0, CheckFound));
    s := DoCheckFound(s, 0);
    events := LeadsOn(events, s, Uses(0, LockForUse));
    s := DoLockForUse(s, 0);
  }

  /** Thread 0 uses the connection again, and has to open a session. */
  lemma UseReopens() returns (events: seq<Event>, s: State)
    ensures Leads(events, s)
    ensures s == Connected(map[], None, 1).(
                 conns := map[0 := Conn(SHOP, 0, Some(8), false, true, Some(0), 0, Handed, None, Some(7))],
                 threads := map[0 := Thread(Block(0, 8, true), [], None, 2), 1 := Thread(Idle, [], None, 1)],
                 open := map[8 := AtConn(0)], born := map[7 := Birth(0, 0, 1), 8 := Birth(0, 0, 2)])
  {
    hide Leads;
    events, s := UseLocks();
    events, s := OpensToRole(events, s, true, 8);
    events, s := Keeps(events, s, true, 8);
  }

  /** A restart goes unreported: the call opened the session it works on, but its connection was
      closed by another call of its client before it asked. */
  lemma ARestartGoesUnreported() returns (events: seq<Event>, s: State)
    ensures Initial(Start()) && Leads(events, s)
    ensures s.threads.Keys == {0, 1} && s.threads[0].pc == Block(0, 8, true)
    ensures 8 in s.born && s.born[8] == Birth(0, 0, s.threads[0].call)
    ensures !Reported(s, 0)
  {
    hide Leads;
    events, s := UseReopens();
    events := LeadsOn(events, s, Uses(1, BeginLookup(0, ALICE, true)));
    s := DoBeginLookup(s, 1, 0, ALICE, true);
    events := LeadsOn(events, s, Uses(1, CheckFound));
    s := DoCheckFound(s, 1);
    events := LeadsOn(events, s, Uses(1, PopForClose));
    s := DoPopForClose(s, 1);
  }
}
