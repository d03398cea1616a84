/** The limits hold under every interleaving, and what a call is told of its session. */
module ConnectionReporting {
  import opened Wrappers
  import opened ConnectionTable
  import opened ConnectionCache
  import opened ConnectionInvariants
  import opened ConnectionSteps
  import opened ConnectionRevocation

  // --- The limits ------------------------------------------------------------------------------

  ghost predicate LimitsHold(s: State) {
    s.cache <= s.conns.Keys && WithinLimits(TableOf(s), s.now, s.cfg)
  }

  lemma ClaimingKeepsLimits(s: State, t: Tid, readings: map<Cid, nat>)
    requires Inv(s) && LimitsHold(s) && CanClaimSlot(s, t, readings)
    ensures LimitsHold(DoClaimSlot(s, t, readings))
  {
    hide Inv, WithinLimits, RoomFor;
    var c := s.threads[t].pc.c;
    var s' := DoClaimSlot(s, t, readings);
    if HasRoom(s, c, readings) {
      InvAround(s, t, Some(c), None);
      ClaimKeepsLimits(TableOf(s), readings, c, s.conns[c].card, s.now, s.now, s.cfg);
      assert TableOf(s') == TableOf(s)[c := s.conns[c].card];
    } else {
      assert TableOf(s') == TableOf(s);
    }
  }

  lemma OthersKeepLimits(s: State, e: Event)
    requires Inv(s) && LimitsHold(s) && Can(s, e) && !Claims(s, e)
    ensures LimitsHold(Next(s, e))
  {
    hide Inv, Can, WithinLimits, NextConnects, NextOpens, NextUses, NextEnds;
    NextKeeps(s, e);
    var s' := Next(s, e);
    CacheIsKnown(s');
    forall c | c in TableOf(s') ensures c in TableOf(s) && TableOf(s')[c] == TableOf(s)[c] {
      if c !in s.cache { OnlyClaimsAdd(s, e, c); }
      CardStays(s, e, c);
    }
    if !e.World? { NextTurns(s, e); }
    LimitsOutliveTimeAndRemoval(TableOf(s), TableOf(s'), s.now, s'.now, s.cfg);
  }

  lemma CacheIsKnown(s: State)
    requires Inv(s)
    ensures s.cache <= s.conns.Keys
  {
  }

  lemma {:induction false} RunKeepsLimits(s: State, events: seq<Event>)
    requires Inv(s) && LimitsHold(s) && Possible(s, events)
    ensures LimitsHold(After(s, events))
    decreases |events|
  {
    hide Inv, LimitsHold, CanClaimSlot, DoClaimSlot;
    if events != [] {
      var e := events[0];
      NextKeeps(s, e);
      if Claims(s, e) {
        ClaimingKeepsLimits(s, e.t, e.connects.readings);
      } else {
        OthersKeepLimits(s, e);
      }
      RunKeepsLimits(Next(s, e), events[1..]);
    }
  }

  lemma InitialLimits(s: State)
    requires Initial(s)
    ensures LimitsHold(s)
  {
    forall scope: Scope ensures |Live(TableOf(s), s.now, s.cfg, scope)| <= Limit(s.cfg, scope) {
      assert Live(TableOf(s), s.now, s.cfg, scope) == {};
    }
  }

  /** The cached connections that are not over yet. */
  ghost function Unexpired(s: State): set<Cid>
    requires s.cache <= s.conns.Keys
  {
    set c | c in s.cache && s.now < s.conns[c].card.openedAt + s.cfg.lifetime
  }

  lemma LimitsBound(s: State, client: Client, user: string)
    requires LimitsHold(s)
    ensures |Unexpired(s)| <= s.cfg.total
    ensures |set c | c in Unexpired(s) && s.conns[c].card.client == client| <= s.cfg.perClient
    ensures |set c | c in Unexpired(s) && s.conns[c].card.client.user == Some(user)| <= s.cfg.perUser
  {
    var table := TableOf(s);
    assert Unexpired(s) == Live(table, s.now, s.cfg, Everyone);
    assert (set c | c in Unexpired(s) && s.conns[c].card.client == client)
           == Live(table, s.now, s.cfg, OneClient(client));
    assert (set c | c in Unexpired(s) && s.conns[c].card.client.user == Some(user))
           == Live(table, s.now, s.cfg, OneUser(user));
    hide Live;
    assert |Live(table, s.now, s.cfg, Everyone)| <= Limit(s.cfg, Everyone);
    assert |Live(table, s.now, s.cfg, OneClient(client))| <= Limit(s.cfg, OneClient(client));
    assert |Live(table, s.now, s.cfg, OneUser(user))| <= Limit(s.cfg, OneUser(user));
  }

  /** For any number of concurrent connects and any passage of time, the unexpired connections are
      never more than a limit allows: in all, for any client, and for any user. */
  lemma LimitsNeverOvershot(s: State, events: seq<Event>, client: Client, user: string)
    requires Initial(s) && Possible(s, events)
    ensures var end := After(s, events);
            && end.cache <= end.conns.Keys && end.cfg == s.cfg
            && |Unexpired(end)| <= s.cfg.total
            && |set c | c in Unexpired(end) && end.conns[c].card.client == client| <= s.cfg.perClient
            && |set c | c in Unexpired(end) && end.conns[c].card.client.user == Some(user)| <= s.cfg.perUser
  {
    hide Inv, LimitsHold, Initial, Unexpired;
    InitialInv(s);
    InitialLimits(s);
    RunKeepsLimits(s, events);
    SettingsStay(s, events);
    LimitsBound(After(s, events), client, user);
    LimitsAreOfKnown(After(s, events));
  }

  lemma {:induction false} SettingsStay(s: State, events: seq<Event>)
    requires Inv(s) && Possible(s, events)
    ensures After(s, events).cfg == s.cfg
    decreases |events|
  {
    hide Inv, Can, Next;
    if events != [] {
      NextKeeps(s, events[0]);
      ClockAndSettings(s, events[0]);
      SettingsStay(Next(s, events[0]), events[1..]);
    }
  }

  lemma LimitsAreOfKnown(s: State)
    requires LimitsHold(s)
    ensures s.cache <= s.conns.Keys
  {
  }

  // --- Restarts ------------------------------------------------------------------------------------

  /** The flag is up on a connection exactly while a call that opened its session is in its block,
      or on its way out of it. */
  lemma FlagIsUpExactlyInOpeningCalls(s: State, c: Cid)
    requires Reachable(s) && c in s.conns
    ensures s.conns[c].restarted <==>
            exists t :: t in s.threads && (s.threads[t].pc.Block? || s.threads[t].pc.Lost? || s.threads[t].pc.Leave?)
                        && s.threads[t].pc.c == c && s.threads[t].pc.ours
  {
    ReachableInv(s);
    hide Reachable;
    assert ConnOk(s, c);
    if s.conns[c].restarted {
      assert ThreadOk(s, s.conns[c].lock.value);
    }
    if t :| t in s.threads && (s.threads[t].pc.Block? || s.threads[t].pc.Lost? || s.threads[t].pc.Leave?)
            && s.threads[t].pc.c == c && s.threads[t].pc.ours {
      assert ThreadOk(s, t);
    }
  }

  /** In a block the flag says whether this very call opened the session; when it did not, the
      session is the one the last db.connect or the last block left the connection with. */
  lemma FlagTellsWhoOpened(s: State, t: Tid)
    requires Inv(s) && t in s.threads && s.threads[t].pc.Block?
    ensures var Block(c, sid, _) := s.threads[t].pc;
            && c in s.conns && sid in s.born && s.conns[c].session == Some(sid)
            && (s.conns[c].restarted <==> s.born[sid] == Birth(c, t, s.threads[t].call))
            && (!s.conns[c].restarted ==> s.conns[c].left == Some(sid))
  {
    assert ThreadOk(s, t);
  }

  predicate Leaves(s: State, e: Event, c: Cid) {
    || (e.Opens? && e.opens.KeepSession? && e.t in s.threads && s.threads[e.t].pc.Open? && !s.threads[e.t].pc.use
        && s.threads[e.t].pc.c == c)
    || (e.Uses? && e.uses.LeaveBlock? && e.t in s.threads && s.threads[e.t].pc.Leave? && s.threads[e.t].pc.c == c)
  }

  lemma ConnectsLeave(s: State, t: Tid, e: ConnectEvent, c: Cid)
    requires CanConnects(s, t, e) && c in s.conns
    ensures c in NextConnects(s, t, e).conns && NextConnects(s, t, e).conns[c].left == s.conns[c].left
    ensures NextConnects(s, t, e).conns[c].lastUsed == s.conns[c].lastUsed
  {
    hide HasRoom;
    match e {
      case BeginConnect(_, _) =>
      case ClaimSlot(_) =>
      case LockForConnect =>
      case BackOut =>
    }
  }

  lemma OtherStagesLeave(s: State, t: Tid, e: OpenEvent, c: Cid)
    requires CanOpens(s, t, e) && !e.KeepSession? && c in s.conns
    ensures c in NextOpens(s, t, e).conns && NextOpens(s, t, e).conns[c].left == s.conns[c].left
    ensures NextOpens(s, t, e).conns[c].lastUsed == s.conns[c].lastUsed
  {
    hide Configured, Expired;
    match e {
      case CheckConfigured =>
      case ReadPassword(_) =>
      case OpenSession(_) =>
      case SetRole(_) =>
      case CloseRefused =>
      case KeepSession =>
    }
  }

  lemma OpensLeave(s: State, t: Tid, e: OpenEvent, c: Cid)
    requires CanOpens(s, t, e) && c in s.conns
    ensures var s' := NextOpens(s, t, e);
            && c in s'.conns
            && s'.conns[c].left == (if Leaves(s, Opens(t, e), c) then s'.conns[c].session else s.conns[c].left)
            && s'.conns[c].lastUsed == s.conns[c].lastUsed
  {
    hide DoCheckConfigured, DoReadPassword, DoOpenSession, DoSetRole, DoCloseRefused;
    if !e.KeepSession? { OtherStagesLeave(s, t, e, c); }
  }

  lemma UsesLeave(s: State, t: Tid, e: UseEvent, c: Cid)
    requires CanUses(s, t, e) && c in s.conns
    ensures var s' := NextUses(s, t, e);
            && c in s'.conns
            && s'.conns[c].left == (if Leaves(s, Uses(t, e), c) then s'.conns[c].session else s.conns[c].left)
            && s'.conns[c].lastUsed == (if Leaves(s, Uses(t, e), c) then s.now else s.conns[c].lastUsed)
  {
    hide Expired;
    match e {
      case BeginLookup(_, _, _) =>
      case CheckFound =>
      case LockForUse =>
      case EndBlock(_) =>
      case CloseLost =>
      case LeaveBlock =>
      case PopForClose =>
    }
  }

  lemma EndsLeave(s: State, t: Tid, e: EndEvent, c: Cid)
    requires CanEnds(s, t, e) && c in s.conns
    ensures c in NextEnds(s, t, e).conns && NextEnds(s, t, e).conns[c].left == s.conns[c].left
    ensures NextEnds(s, t, e).conns[c].lastUsed == s.conns[c].lastUsed
  {
    hide Expired;
    match e {
      case SetClosed =>
      case TakeSession =>
      case CloseTaken =>
      case BeginDropPass(_, _) =>
      case BeginIdlePass(_) =>
      case BeginDelete(_) =>
      case TakeSnapshot(_) =>
      case DropNext =>
      case IdleNext =>
      case CloseIdle =>
      case Finish =>
    }
  }

  /** What the last open or block left: only the end of a db.connect's open and the end of a block
      set it, to the session the connection has at that moment. When a connection was last used:
      only the end of a block sets it, to the time it is. */
  lemma LeftIsWhatWasLeft(s: State, e: Event, c: Cid)
    requires Can(s, e) && c in s.conns
    ensures var s' := Next(s, e);
            && c in s'.conns
            && s'.conns[c].left == (if Leaves(s, e, c) then s'.conns[c].session else s.conns[c].left)
            && s'.conns[c].lastUsed == (if Leaves(s, e, c) && e.Uses? then s.now else s.conns[c].lastUsed)
  {
    hide NextConnects, NextOpens, NextUses, NextEnds, CanConnects, CanOpens, CanUses, CanEnds;
    match e
    case World(_) =>
    case Connects(t, connects) => ConnectsLeave(s, t, connects, c);
    case Opens(t, opens) => OpensLeave(s, t, opens, c);
    case Uses(t, uses) => UsesLeave(s, t, uses, c);
    case Ends(t, ends) => EndsLeave(s, t, ends, c);
  }

  /** A call whose connection was told at rest to have a session, and that sees no restart, works
      on that session. */
  lemma {:induction false} LeftOverRun(s: State, events: seq<Event>, c: Cid)
    requires Possible(s, events) && c in s.conns
    requires LeavesNever(s, events, c)
    ensures c in After(s, events).conns && After(s, events).conns[c].left == s.conns[c].left
    decreases |events|
  {
    hide Can, Next, Leaves;
    if events != [] {
      LeftIsWhatWasLeft(s, events[0], c);
      LeftOverRun(Next(s, events[0]), events[1..], c);
    }
  }

  /** Over the events, no db.connect and no block on the connection ends. */
  ghost predicate LeavesNever(s: State, events: seq<Event>, c: Cid)
    requires Possible(s, events)
    decreases |events|
  {
    events == [] || (!Leaves(s, events[0], c) && LeavesNever(Next(s, events[0]), events[1..], c))
  }

  /** From the end of an open or a block to a later call that sees no restart, with no other block
      ending in between: the call works on the very session that was left. */
  lemma UnrestartedCallWorksOnWhatWasLeft(s: State, e: Event, between: seq<Event>, c: Cid, t: Tid)
    requires Reachable(s) && Can(s, e) && c in s.conns && Leaves(s, e, c)
    requires Possible(Next(s, e), between) && LeavesNever(Next(s, e), between, c)
    requires var end := After(Next(s, e), between);
             t in end.threads && end.threads[t].pc.Block? && end.threads[t].pc.c == c
             && c in end.conns && !end.conns[c].restarted
    ensures c in Next(s, e).conns && Next(s, e).conns[c].session == Some(After(Next(s, e), between).threads[t].pc.s)
  {
    hide Inv, Can, Next, Leaves, LeavesNever;
    ReachableInv(s);
    hide Reachable;
    LeftIsWhatWasLeft(s, e, c);
    NextKeeps(s, e);
    RunKeeps(Next(s, e), between);
    LeftOverRun(Next(s, e), between, c);
    FlagTellsWhoOpened(After(Next(s, e), between), t);
  }

  /** What a tool reports: the flag of the connection the id names in the cache at that moment. */
  predicate Reported(s: State, c: Cid) {
    c in s.cache && c in s.conns && s.conns[c].restarted
  }

  /** A restart is never reported that the call did not make; one it made goes unreported exactly
      when the connection was taken out of the cache during the call. */
  lemma ReportIsTrueWhileCached(s: State, t: Tid)
    requires Reachable(s) && t in s.threads && s.threads[t].pc.Block?
    ensures var Block(c, sid, _) := s.threads[t].pc;
            && sid in s.born
            && (Reported(s, c) ==> s.born[sid] == Birth(c, t, s.threads[t].call))
            && (s.born[sid] == Birth(c, t, s.threads[t].call) ==> (Reported(s, c) <==> c in s.cache))
  {
    hide Inv, Reachable;
    ReachableInv(s);
    FlagTellsWhoOpened(s, t);
  }
}
