/** What the connection cache promises, in every reachable state and over every run. */
module ConnectionSafety {
  import opened Wrappers
  import opened ConnectionTable
  import opened ConnectionCache
  import opened ConnectionInvariants
  import opened ConnectionSteps

  // --- No session is leaked ---------------------------------------------------------------------

  /** A cached connection has the session, or one that left the cache and that a thread is about
      to close, or a thread that is opening or closing it. */
  ghost predicate Accounted(s: State, sid: Sid) {
    || (exists c :: c in s.cache && c in s.conns && s.conns[c].session == Some(sid))
    || (exists c, t :: c in s.conns && c !in s.cache && s.conns[c].session == Some(sid)
                       && t in s.threads && (s.threads[t].pc == Drop(c) || s.threads[t].pc == Take(c)))
    || (exists t :: t in s.threads && Hand(s.threads[t].pc) == Some(sid))
  }

  lemma AtItsConnection(s: State, sid: Sid)
    requires Inv(s) && sid in s.open && s.open[sid].AtConn?
    ensures var c := s.open[sid].c; c in s.conns && s.conns[c].session == Some(sid)
  {
    hide ThreadOk, ConnOk;
    assert SessionOk(s, sid);
  }

  lemma UncachedIsBeingClosed(s: State, c: Cid)
    requires Inv(s) && c in s.conns && c !in s.cache && s.conns[c].session.Some?
    ensures exists t :: t in s.threads && (s.threads[t].pc == Drop(c) || s.threads[t].pc == Take(c))
  {
    hide ThreadOk, SessionOk;
    assert ConnOk(s, c);
    var t := s.conns[c].closer.value;
    assert s.threads[t].pc == Drop(c) || s.threads[t].pc == Take(c);
  }

  lemma HandHasIt(s: State, sid: Sid)
    requires Inv(s) && sid in s.open && s.open[sid].InHand?
    ensures var t := s.open[sid].t; t in s.threads && Hand(s.threads[t].pc) == Some(sid)
  {
    hide ThreadOk, ConnOk, Hand;
    assert SessionOk(s, sid);
  }

  lemma InvAccounts(s: State, sid: Sid)
    requires Inv(s) && sid in s.open && !s.open[sid].Leaked?
    ensures Accounted(s, sid)
  {
    hide Inv, Hand;
    if s.open[sid].AtConn? {
      AtItsConnection(s, sid);
      if s.open[sid].c !in s.cache { UncachedIsBeingClosed(s, s.open[sid].c); }
    } else {
      HandHasIt(s, sid);
    }
  }

  ghost predicate LeakedIn(s: State, sid: Sid) {
    sid in s.open && s.open[sid].Leaked?
  }

  /** The one event that loses a session: the user's default role could not be read. */
  predicate Leaks(e: Event) {
    e.Opens? && e.opens == SetRole(RoleUnreadable)
  }

  lemma ConnectsLeakNothing(s: State, t: Tid, e: ConnectEvent, sid: Sid)
    requires CanConnects(s, t, e) && LeakedIn(NextConnects(s, t, e), sid)
    ensures LeakedIn(s, sid)
  {
  }

  lemma OpensLeakOnlyThen(s: State, t: Tid, e: OpenEvent, sid: Sid)
    requires CanOpens(s, t, e) && e != SetRole(RoleUnreadable) && LeakedIn(NextOpens(s, t, e), sid)
    ensures LeakedIn(s, sid)
  {
  }

  lemma UsesLeakNothing(s: State, t: Tid, e: UseEvent, sid: Sid)
    requires CanUses(s, t, e) && LeakedIn(NextUses(s, t, e), sid)
    ensures LeakedIn(s, sid)
  {
  }

  lemma EndsLeakNothing(s: State, t: Tid, e: EndEvent, sid: Sid)
    requires CanEnds(s, t, e) && LeakedIn(NextEnds(s, t, e), sid)
    ensures LeakedIn(s, sid)
  {
  }

  lemma LeaksOnlyThen(s: State, e: Event, sid: Sid)
    requires Can(s, e) && !Leaks(e) && LeakedIn(Next(s, e), sid)
    ensures LeakedIn(s, sid)
  {
    hide NextConnects, NextOpens, NextUses, NextEnds, CanConnects, CanOpens, CanUses, CanEnds;
    match e
    case World(_) =>
    case Connects(t, connects) => ConnectsLeakNothing(s, t, connects, sid);
    case Opens(t, opens) => OpensLeakOnlyThen(s, t, opens, sid);
    case Uses(t, uses) => UsesLeakNothing(s, t, uses, sid);
    case Ends(t, ends) => EndsLeakNothing(s, t, ends, sid);
  }

  lemma LeakLasts(s: State, e: Event, sid: Sid)
    requires Inv(s) && Can(s, e) && LeakedIn(s, sid)
    ensures LeakedIn(Next(s, e), sid)
  {
    hide NextConnects, NextOpens, NextUses, NextEnds, CanConnects, CanOpens, CanUses, CanEnds, Inv;
    if !e.World? {
      NextTurns(s, e);
      var c: Option<Cid>, x: Option<Sid> :| LocalStep(s, Next(s, e), e.t, c, x);
    }
  }

  lemma {:induction false} LeakLastsToTheEnd(s: State, events: seq<Event>, sid: Sid)
    requires Inv(s) && Possible(s, events) && LeakedIn(s, sid)
    ensures LeakedIn(After(s, events), sid)
    decreases |events|
  {
    hide Inv, LeakedIn;
    if events != [] {
      LeakLasts(s, events[0], sid);
      NextKeeps(s, events[0]);
      LeakLastsToTheEnd(Next(s, events[0]), events[1..], sid);
    }
  }

  /** A role that cannot be read leaves a session nobody has. */
  lemma UnreadableRoleLeaks(s: State, e: Event)
    requires Inv(s) && Can(s, e) && Leaks(e)
    ensures LeakedIn(Next(s, e), s.threads[e.t].pc.stage.s)
  {
  }

  /** A run leaks a session if and only if the default role of a user could not be read in it. */
  lemma {:induction false} LeakExactlyWhenRoleUnreadable(s: State, events: seq<Event>)
    requires Inv(s) && Possible(s, events) && (forall sid :: !LeakedIn(s, sid))
    ensures (exists sid :: LeakedIn(After(s, events), sid)) <==> (exists i :: 0 <= i < |events| && Leaks(events[i]))
    decreases |events|
  {
    hide Inv, LeakedIn;
    if events != [] {
      var e, s' := events[0], Next(s, events[0]);
      NextKeeps(s, e);
      assert After(s, events) == After(s', events[1..]);
      if Leaks(e) {
        UnreadableRoleLeaks(s, e);
        LeakLastsToTheEnd(s', events[1..], s.threads[e.t].pc.stage.s);
      } else {
        forall sid ensures !LeakedIn(s', sid) {
          if LeakedIn(s', sid) { LeaksOnlyThen(s, e, sid); }
        }
        LeakExactlyWhenRoleUnreadable(s', events[1..]);
        if i :| 0 <= i < |events| && Leaks(events[i]) {
          assert events[1..][i - 1] == events[i];
        }
        if j :| 0 <= j < |events[1..]| && Leaks(events[1..][j]) {
          assert events[j + 1] == events[1..][j];
        }
      }
    }
  }

  lemma ConnectionsSessionIsNotLeaked(s: State, c: Cid)
    requires Inv(s) && c in s.conns && s.conns[c].session.Some?
    ensures !LeakedIn(s, s.conns[c].session.value)
  {
    hide ThreadOk, SessionOk;
    assert ConnOk(s, c);
  }

  lemma HandsSessionIsNotLeaked(s: State, t: Tid)
    requires Inv(s) && t in s.threads && Hand(s.threads[t].pc).Some?
    ensures !LeakedIn(s, Hand(s.threads[t].pc).value)
  {
    hide ConnOk, SessionOk;
    assert ThreadOk(s, t);
  }

  lemma AccountedIsNotLeaked(s: State, sid: Sid)
    requires Inv(s) && Accounted(s, sid)
    ensures !LeakedIn(s, sid)
  {
    hide Inv, LeakedIn, Hand;
    if c :| c in s.conns && s.conns[c].session == Some(sid) {
      ConnectionsSessionIsNotLeaked(s, c);
    } else {
      var t :| t in s.threads && Hand(s.threads[t].pc) == Some(sid);
      HandsSessionIsNotLeaked(s, t);
    }
  }

  /** At the end of every run, whatever the interleaving, every open session is within somebody's
      reach - if and only if no role was unreadable in it. */
  lemma NoSessionLeak(s: State, events: seq<Event>)
    requires Initial(s) && Possible(s, events)
    ensures (forall sid :: sid in After(s, events).open ==> Accounted(After(s, events), sid))
            <==> (forall i :: 0 <= i < |events| ==> !Leaks(events[i]))
  {
    hide Accounted, LeakedIn;
    InitialLeaksNothing(s);
    InitialInv(s);
    RunKeeps(s, events);
    LeakExactlyWhenRoleUnreadable(s, events);
    var end := After(s, events);
    forall sid | sid in end.open ensures Accounted(end, sid) <==> !LeakedIn(end, sid) {
      if Accounted(end, sid) {
        AccountedIsNotLeaked(end, sid);
      } else if !LeakedIn(end, sid) {
        UnleakedIsAccounted(end, sid);
      }
    }
    if sid :| LeakedIn(end, sid) { LeakedIsOpen(end, sid); }
  }

  lemma InitialLeaksNothing(s: State)
    requires Initial(s)
    ensures forall sid :: !LeakedIn(s, sid)
  {
  }

  lemma LeakedIsOpen(s: State, sid: Sid)
    requires LeakedIn(s, sid)
    ensures sid in s.open
  {
  }

  lemma UnleakedIsAccounted(s: State, sid: Sid)
    requires Inv(s) && sid in s.open && !LeakedIn(s, sid)
    ensures Accounted(s, sid)
  {
    InvAccounts(s, sid);
  }

  /** With no call in flight, the open sessions are those of the cached connections, and those
      leaked. */
  lemma AtRestOnlyCachedSessionsAreOpen(s: State, sid: Sid)
    requires Reachable(s) && forall t :: t in s.threads ==> s.threads[t].pc == Idle
    ensures sid in s.open && !s.open[sid].Leaked? <==>
            exists c :: c in s.cache && c in s.conns && s.conns[c].session == Some(sid)
  {
    ReachableInv(s);
    hide Reachable;
    if sid in s.open && !s.open[sid].Leaked? {
      InvAccounts(s, sid);
    }
    if c :| c in s.cache && c in s.conns && s.conns[c].session == Some(sid) {
      assert ConnOk(s, c);
    }
  }

  // --- A session is used by one thread at a time, closed once, and closing is final --------------

  lemma BlockHasItsSession(s: State, t: Tid)
    requires Inv(s) && t in s.threads && s.threads[t].pc.Block?
    ensures var Block(c, sid, ours) := s.threads[t].pc;
            && c in s.conns && s.conns[c].session == Some(sid) && s.conns[c].restarted == ours
            && s.conns[c].lock == Some(t) && !s.conns[c].closed
            && sid in s.open && s.open[sid] == AtConn(c)
  {
    InvAround(s, t, Some(s.threads[t].pc.c), None);
    hide Inv;
  }

  lemma HoldsAreLocked(s: State, t: Tid)
    requires Inv(s) && t in s.threads
    ensures var pc := s.threads[t].pc;
            && (Holds(pc).Some? ==> Holds(pc).value in s.conns && s.conns[Holds(pc).value].lock == Some(t))
            && (Hand(pc).Some? ==> Hand(pc).value in s.open && s.open[Hand(pc).value] == InHand(t))
            && (pc.Block? ==> Holds(pc) == Some(pc.c))
  {
    ThreadIsOk(s, t);
    hide Inv;
  }

  /** While a block runs, its session is open, is the connection's, and is in no other thread's
      block or hands. */
  lemma BlockIsExclusive(s: State, t: Tid, t': Tid)
    requires Reachable(s) && t in s.threads && s.threads[t].pc.Block? && t' in s.threads && t' != t
    ensures var Block(c, sid, _) := s.threads[t].pc;
            && c in s.conns && s.conns[c].session == Some(sid) && s.conns[c].lock == Some(t) && !s.conns[c].closed
            && sid in s.open && s.open[sid] == AtConn(c)
            && Hand(s.threads[t'].pc) != Some(sid) && Holds(s.threads[t'].pc) != Some(c)
            && (s.threads[t'].pc.Block? ==> s.threads[t'].pc.s != sid)
  {
    hide Inv, Reachable, Holds, Hand;
    ReachableInv(s);
    BlockHasItsSession(s, t);
    HoldsAreLocked(s, t');
    if s.threads[t'].pc.Block? { BlockHasItsSession(s, t'); }
  }

  /** No event of another thread touches the session of a running block. */
  lemma OthersLeaveBlockAlone(s: State, t: Tid, e: Event)
    requires Reachable(s) && t in s.threads && s.threads[t].pc.Block? && Can(s, e) && (e.World? || e.t != t)
    ensures var Block(c, sid, ours) := s.threads[t].pc;
            var s' := Next(s, e);
            && t in s'.threads && s'.threads[t].pc == Block(c, sid, ours)
            && c in s'.conns && s'.conns[c].session == Some(sid) && s'.conns[c].restarted == ours
            && sid in s'.open && s'.open[sid] == AtConn(c)
  {
    hide Inv, Reachable, Can, Next;
    ReachableInv(s);
    OtherThreadStays(s, e, t);
    NextKeeps(s, e);
    BlockHasItsSession(Next(s, e), t);
  }

  /** The session an event closes, if it closes one. */
  function Closes(s: State, e: Event): Option<Sid>
    requires Can(s, e)
  {
    match e
    case World(_) => None
    case Connects(_, _) => None
    case Opens(t, opens) => if opens.CloseRefused? then Hand(s.threads[t].pc) else None
    case Uses(t, uses) => if uses.CloseLost? then Hand(s.threads[t].pc) else None
    case Ends(t, ends) => if ends.CloseTaken? || ends.CloseIdle? then Hand(s.threads[t].pc) else None
  }

  ghost predicate Spent(s: State, sid: Sid) {
    sid in s.born && sid !in s.open
  }

  /** Only an open session is closed, and then it is open no more. */
  lemma ClosingSpends(s: State, e: Event)
    requires Inv(s) && Can(s, e) && Closes(s, e).Some?
    ensures Closes(s, e).value in s.open && Spent(Next(s, e), Closes(s, e).value)
  {
    assert ThreadOk(s, e.t);
    assert SessionOk(s, Closes(s, e).value);
  }

  lemma SpentStays(s: State, e: Event, sid: Sid)
    requires Inv(s) && Can(s, e) && Spent(s, sid)
    ensures Spent(Next(s, e), sid)
  {
    hide NextConnects, NextOpens, NextUses, NextEnds, CanConnects, CanOpens, CanUses, CanEnds, Inv;
    if !e.World? {
      NextTurns(s, e);
      var c: Option<Cid>, x: Option<Sid> :| LocalStep(s, Next(s, e), e.t, c, x);
    }
  }

  lemma {:induction false} SpentStaysToTheEnd(s: State, events: seq<Event>, sid: Sid)
    requires Inv(s) && Possible(s, events) && Spent(s, sid)
    ensures Inv(After(s, events)) && Spent(After(s, events), sid)
    decreases |events|
  {
    hide Inv, Spent;
    if events != [] {
      SpentStays(s, events[0], sid);
      NextKeeps(s, events[0]);
      SpentStaysToTheEnd(Next(s, events[0]), events[1..], sid);
    }
  }

  /** No session is closed a second time, however the run goes on. */
  lemma ClosedAtMostOnce(s: State, e: Event, between: seq<Event>, e': Event)
    requires Reachable(s) && Can(s, e) && Closes(s, e).Some?
    requires Possible(Next(s, e), between) && Can(After(Next(s, e), between), e')
    ensures Closes(After(Next(s, e), between), e') != Closes(s, e)
  {
    hide Inv, Closes, Can;
    ReachableInv(s);
    hide Reachable;
    var sid := Closes(s, e).value;
    ClosingSpends(s, e);
    NextKeeps(s, e);
    SpentStaysToTheEnd(Next(s, e), between, sid);
    if Closes(After(Next(s, e), between), e').Some? {
      ClosingSpends(After(Next(s, e), between), e');
    }
  }

  /** The sessions ever opened on a connection. */
  ghost function OpenedOn(s: State, c: Cid): set<Sid> {
    set sid | sid in s.born && s.born[sid].c == c
  }

  lemma NothingOpensOnClosed(s: State, e: Event, c: Cid)
    requires Inv(s) && Can(s, e) && c in s.conns && s.conns[c].closed
    ensures var s' := Next(s, e);
            c in s'.conns && s'.conns[c].closed && OpenedOn(s', c) == OpenedOn(s, c)
  {
    hide NextConnects, NextOpens, NextUses, NextEnds, CanConnects, CanOpens, CanUses, CanEnds, Inv;
    if !e.World? {
      NextTurns(s, e);
      var oc: Option<Cid>, x: Option<Sid> :| LocalStep(s, Next(s, e), e.t, oc, x);
      assert OpenedOn(Next(s, e), c) == OpenedOn(s, c);
    }
  }

  lemma {:induction false} ClosedStaysClosed(s: State, events: seq<Event>, c: Cid)
    requires Inv(s) && Possible(s, events) && c in s.conns && s.conns[c].closed
    ensures var end := After(s, events);
            c in end.conns && end.conns[c].closed && OpenedOn(end, c) == OpenedOn(s, c)
    decreases |events|
  {
    hide Inv, Can, OpenedOn;
    if events != [] {
      NothingOpensOnClosed(s, events[0], c);
      NextKeeps(s, events[0]);
      ClosedStaysClosed(Next(s, events[0]), events[1..], c);
    }
  }

  /** Once a connection is closed, no session is ever opened on it again. */
  lemma ClosingIsFinal(s: State, events: seq<Event>, c: Cid)
    requires Reachable(s) && Possible(s, events) && c in s.conns && s.conns[c].closed
    ensures var end := After(s, events);
            c in end.conns && end.conns[c].closed && OpenedOn(end, c) == OpenedOn(s, c)
  {
    hide Inv, Reachable, OpenedOn;
    ReachableInv(s);
    ClosedStaysClosed(s, events, c);
  }
}
