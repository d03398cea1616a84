/** What the passes over the cache end, and what they leave: the one that drops the connections of removed
    users or of an ended sign-in, and the one that closes idle sessions. */
module ConnectionPasses {
  import opened Wrappers
  import opened ConnectionTable
  import opened ConnectionCache
  import opened ConnectionInvariants
  import opened ConnectionSteps
  import opened ConnectionRevocation
  import opened ConnectionReporting

  // --- Out of the cache for good -------------------------------------------------------------------

  /** A connection that was in the cache once. */
  predicate Claimed(s: State, c: Cid) {
    c in s.conns && !s.conns[c].phase.Fresh?
  }

  lemma CachedIsClaimed(s: State, c: Cid)
    requires Inv(s) && c in s.cache
    ensures Claimed(s, c)
  {
    assert ConnOk(s, c);
  }

  lemma TurnKeepsClaimed(s: State, s': State, t: Tid, c: Cid)
    requires Turn(s, s', t) && Claimed(s, c)
    ensures Claimed(s', c)
    ensures t in s.threads && t in s'.threads && s.threads[t].call <= s'.threads[t].call
  {
    hide OnlySession, ThreadOk, ConnOk, SessionOk, BirthOk;
  }

  lemma StaysClaimed(s: State, e: Event, c: Cid)
    requires Inv(s) && Can(s, e) && Claimed(s, c)
    ensures Claimed(Next(s, e), c)
  {
    hide Inv, Turn, NextConnects, NextOpens, NextUses, NextEnds, CanConnects, CanOpens, CanUses, CanEnds;
    if !e.World? {
      NextTurns(s, e);
      TurnKeepsClaimed(s, Next(s, e), e.t, c);
    }
  }

  lemma ClaimingIsFresh(s: State, t: Tid)
    requires Inv(s) && t in s.threads && s.threads[t].pc.Claiming?
    ensures s.threads[t].pc.c in s.conns && s.conns[s.threads[t].pc.c].phase.Fresh?
  {
    assert ThreadOk(s, t);
  }

  /** A connection taken out of the cache does not come back to it. */
  lemma StaysOut(s: State, e: Event, c: Cid)
    requires Inv(s) && Can(s, e) && Claimed(s, c) && c !in s.cache
    ensures Claimed(Next(s, e), c) && c !in Next(s, e).cache
  {
    hide Inv, Next, Can;
    StaysClaimed(s, e, c);
    if c in Next(s, e).cache {
      OnlyClaimsAdd(s, e, c);
      ClaimingIsFresh(s, e.t);
    }
  }

  lemma {:induction false} StaysOutForEver(s: State, events: seq<Event>, c: Cid)
    requires Inv(s) && Possible(s, events) && Claimed(s, c) && c !in s.cache
    ensures c !in After(s, events).cache
    decreases |events|
  {
    hide Inv, Next, Can, Claimed;
    if events != [] {
      NextKeeps(s, events[0]);
      StaysOut(s, events[0], c);
      StaysOutForEver(Next(s, events[0]), events[1..], c);
    }
  }

  // --- The pass that drops connections -------------------------------------------------------------

  /** What is left of a drop pass, the thread's call of that number: each listed connection that is cached
      is still to come, and nothing else is. */
  ghost predicate Dropping(s: State, t: Tid, call: nat, listed: seq<Cid>) {
    && t in s.threads && call <= s.threads[t].call
    && (forall c :: c in listed ==> Claimed(s, c))
    && (forall c :: c in listed && c in s.cache ==>
          s.threads[t].call == call && !s.threads[t].pc.Idle? && c in s.threads[t].todo)
    && (s.threads[t].call == call ==>
          && DropPc(s.threads[t].pc, listed)
          && forall c :: c in s.threads[t].todo ==> c in listed)
  }

  predicate DropPc(pc: Pc, listed: seq<Cid>) {
    match pc
    case Idle => true
    case Pass => true
    case Drop(c) => c in listed
    case Take(c) => c in listed
    case Shut(_) => true
    case _ => false
  }

  lemma OtherKeepsDropping(s: State, e: Event, t: Tid, call: nat, listed: seq<Cid>)
    requires Inv(s) && Can(s, e) && Dropping(s, t, call, listed)
    requires e.World? || e.t != t
    ensures Dropping(Next(s, e), t, call, listed)
  {
    hide Inv, Next, Can, Claimed;
    OtherThreadStays(s, e, t);
    forall c | c in listed
      ensures Claimed(Next(s, e), c) && (c in Next(s, e).cache ==> c in s.cache)
    {
      StaysClaimed(s, e, c);
      if c !in s.cache { StaysOut(s, e, c); }
    }
  }

  lemma CallsGrow(s: State, e: Event)
    requires Inv(s) && Can(s, e) && !e.World?
    ensures e.t in s.threads && e.t in Next(s, e).threads && s.threads[e.t].call <= Next(s, e).threads[e.t].call
  {
    hide Inv, Turn, Next, Can;
    NextTurns(s, e);
    assert forall s': State :: Turn(s, s', e.t) ==> TurnGrows(s, s', e.t) by {
      forall s': State | Turn(s, s', e.t) ensures TurnGrows(s, s', e.t) { TurnCallGrows(s, s', e.t); }
    }
  }

  ghost predicate TurnGrows(s: State, s': State, t: Tid) {
    t in s.threads && t in s'.threads && s.threads[t].call <= s'.threads[t].call
  }

  lemma TurnCallGrows(s: State, s': State, t: Tid)
    requires Turn(s, s', t)
    ensures TurnGrows(s, s', t)
  {
    hide OnlyConn, OnlySession, ThreadOk, ConnOk, SessionOk, BirthOk;
  }

  /** Within the call only its own events are possible; between calls only beginning another. */
  lemma OwnEventsOfDropping(s: State, e: Event, t: Tid, call: nat, listed: seq<Cid>)
    requires Can(s, e) && Dropping(s, t, call, listed) && !e.World? && e.t == t && s.threads[t].call == call
    ensures s.threads[t].pc.Idle?
            || (e.Ends? && (e.ends.SetClosed? || e.ends.TakeSession? || e.ends.CloseTaken? || e.ends.DropNext?
                            || e.ends.Finish?))
  {
    hide HasRoom, ToDrop, OpenOn, Claimed;
  }

  lemma ClosingKeepsDropping(s: State, t: Tid, e: EndEvent, call: nat, listed: seq<Cid>)
    requires CanEnds(s, t, e) && Dropping(s, t, call, listed) && s.threads[t].call == call && !s.threads[t].pc.Idle?
    requires e.SetClosed? || e.TakeSession? || e.CloseTaken?
    ensures Dropping(NextEnds(s, t, e), t, call, listed)
  {
    hide CanFinish, DoFinish, CanBeginDropPass, CanBeginIdlePass, CanBeginDelete, CanTakeSnapshot, CanIdleNext,
      CanCloseIdle, CanDropNext;
    hide DoBeginDelete, DoTakeSnapshot, DoIdleNext, DoCloseIdle, DoDropNext, Returned;
    match e {
      case SetClosed =>
      case TakeSession =>
      case CloseTaken =>
    }
  }

  lemma FinishKeepsDropping(s: State, t: Tid, call: nat, listed: seq<Cid>)
    requires CanFinish(s, t) && Dropping(s, t, call, listed) && s.threads[t].call == call
    ensures Dropping(DoFinish(s, t), t, call, listed)
  {
    hide Returned, Claimed;
    assert forall c :: c in listed ==> Claimed(DoFinish(s, t), c) by { OnlyMoves(s, t); }
  }

  lemma OnlyMoves(s: State, t: Tid)
    requires CanFinish(s, t)
    ensures forall c :: Claimed(s, c) ==> Claimed(DoFinish(s, t), c)
  {
  }

  lemma DropKeepsDropping(s: State, t: Tid, call: nat, listed: seq<Cid>)
    requires CanDropNext(s, t) && Dropping(s, t, call, listed) && s.threads[t].call == call
    ensures Dropping(DoDropNext(s, t), t, call, listed)
  {
    var s' := DoDropNext(s, t);
    var todo := s.threads[t].todo;
    assert todo == [todo[0]] + todo[1..];
    assert forall c :: c in listed ==> Claimed(s', c);
    assert s'.cache == s.cache - {todo[0]};
  }

  lemma OwnKeepsDropping(s: State, t: Tid, e: EndEvent, call: nat, listed: seq<Cid>)
    requires CanEnds(s, t, e) && Dropping(s, t, call, listed) && s.threads[t].call == call && !s.threads[t].pc.Idle?
    requires e.SetClosed? || e.TakeSession? || e.CloseTaken? || e.DropNext? || e.Finish?
    ensures Dropping(NextEnds(s, t, e), t, call, listed)
  {
    hide Dropping, DoDropNext, CanDropNext, DoFinish, CanFinish;
    if e.DropNext? {
      DropKeepsDropping(s, t, call, listed);
    } else if e.Finish? {
      FinishKeepsDropping(s, t, call, listed);
    } else {
      ClosingKeepsDropping(s, t, e, call, listed);
    }
  }

  ghost predicate Begins(s: State, s': State, t: Tid)
    requires t in s.threads
  {
    s'.cache == s.cache && t in s'.threads
    && (s'.threads[t].call == s.threads[t].call ==> s'.threads[t] == s.threads[t])
  }

  lemma IdleConnects(s: State, t: Tid, e: ConnectEvent)
    requires CanConnects(s, t, e) && t in s.threads && s.threads[t].pc.Idle?
    ensures Begins(s, NextConnects(s, t, e), t)
  {
    hide HasRoom;
  }

  lemma IdleUses(s: State, t: Tid, e: UseEvent)
    requires CanUses(s, t, e) && t in s.threads && s.threads[t].pc.Idle?
    ensures Begins(s, NextUses(s, t, e), t)
  {
    hide Expired;
  }

  lemma IdleEnds(s: State, t: Tid, e: EndEvent)
    requires CanEnds(s, t, e) && t in s.threads && s.threads[t].pc.Idle?
    ensures Begins(s, NextEnds(s, t, e), t)
  {
    hide ToDrop, OpenOn, Stores;
    match e {
      case BeginDropPass(_, _) =>
      case BeginIdlePass(_) =>
      case BeginDelete(_) =>
    }
  }

  lemma IdleOpensNothing(s: State, t: Tid, e: OpenEvent)
    requires CanOpens(s, t, e)
    ensures t in s.threads && s.threads[t].pc.Open?
  {
  }

  lemma BeginningLeavesCache(s: State, e: Event)
    requires Can(s, e) && !e.World? && e.t in s.threads && s.threads[e.t].pc.Idle?
    ensures Begins(s, Next(s, e), e.t)
  {
    hide Begins, NextConnects, NextOpens, NextUses, NextEnds, CanConnects, CanOpens, CanUses, CanEnds;
    match e
    case Connects(t, connects) => IdleConnects(s, t, connects);
    case Opens(t, opens) => IdleOpensNothing(s, t, opens);
    case Uses(t, uses) => IdleUses(s, t, uses);
    case Ends(t, ends) => IdleEnds(s, t, ends);
  }

  lemma IdleKeepsDropping(s: State, e: Event, t: Tid, call: nat, listed: seq<Cid>)
    requires Inv(s) && Can(s, e) && !e.World? && e.t == t && Dropping(s, t, call, listed)
    requires s.threads[t].pc.Idle? || call < s.threads[t].call
    ensures Dropping(Next(s, e), t, call, listed)
  {
    hide Inv, Next, Can, Claimed;
    CallsGrow(s, e);
    forall c | c in listed ensures Claimed(Next(s, e), c) && c !in Next(s, e).cache {
      StaysOut(s, e, c);
    }
    if s.threads[t].pc.Idle? { BeginningLeavesCache(s, e); }
  }

  lemma DroppingGoesOn(s: State, e: Event, t: Tid, call: nat, listed: seq<Cid>)
    requires Inv(s) && Can(s, e) && Dropping(s, t, call, listed)
    ensures Dropping(Next(s, e), t, call, listed)
  {
    hide Inv, Dropping, CanEnds, NextEnds, CanUses, NextUses, CanOpens, NextOpens, CanConnects, NextConnects;
    if e.World? || e.t != t {
      OtherKeepsDropping(s, e, t, call, listed);
    } else if ThreadAt(s, t, call, listed) {
      OwnEventsOfDropping(s, e, t, call, listed);
      OwnKeepsDropping(s, t, e.ends, call, listed);
    } else {
      IdleKeepsDropping(s, e, t, call, listed);
    }
  }

  /** The thread is in that call still. */
  ghost predicate ThreadAt(s: State, t: Tid, call: nat, listed: seq<Cid>)
    requires Dropping(s, t, call, listed)
    ensures t in s.threads && call <= s.threads[t].call
  {
    s.threads[t].call == call && !s.threads[t].pc.Idle?
  }

  lemma {:induction false} DroppingOverRun(s: State, events: seq<Event>, t: Tid, call: nat, listed: seq<Cid>)
    requires Inv(s) && Possible(s, events) && Dropping(s, t, call, listed)
    ensures Dropping(After(s, events), t, call, listed)
    decreases |events|
  {
    hide Inv, Can, Next, Dropping;
    if events != [] {
      NextKeeps(s, events[0]);
      DroppingGoesOn(s, events[0], t, call, listed);
      DroppingOverRun(Next(s, events[0]), events[1..], t, call, listed);
    }
  }

  lemma PassBeginsDropping(s: State, t: Tid, listed: seq<Cid>, why: Why)
    requires Inv(s) && CanBeginDropPass(s, t, listed, why)
    ensures Dropping(Begin(s, t, Pass, listed, None), t, s.threads[t].call + 1, listed)
  {
    hide Inv, ToDrop;
    forall c | c in listed ensures Claimed(s, c) { CachedIsClaimed(s, c); }
  }

  /** Once the call is over, nothing it listed is cached; while it lasts, it drops what it listed. */
  lemma DropPassDrops(s: State, t: Tid, listed: seq<Cid>, why: Why, events: seq<Event>, c: Cid)
    requires Reachable(s) && Can(s, Ends(t, BeginDropPass(listed, why)))
    requires Possible(Next(s, Ends(t, BeginDropPass(listed, why))), events)
    ensures var end := After(Next(s, Ends(t, BeginDropPass(listed, why))), events);
            && t in s.threads && t in end.threads && s.threads[t].call < end.threads[t].call
            && (s.threads[t].call + 1 < end.threads[t].call || end.threads[t].pc.Idle? || CanFinish(end, t) ==>
                  c in listed ==> c !in end.cache)
            && (s.threads[t].call + 1 == end.threads[t].call && end.threads[t].pc == Drop(c) ==> c in listed)
  {
    hide Inv, Claimed;
    ReachableInv(s);
    hide Reachable;
    NextKeeps(s, Ends(t, BeginDropPass(listed, why)));
    PassBeginsDropping(s, t, listed, why);
    DroppingOverRun(Next(s, Ends(t, BeginDropPass(listed, why))), events, t, s.threads[t].call + 1, listed);
  }

  /** Once the pass for removed users is over, no connection that was cached when it began and belongs to a
      user who was not active is cached, whatever other threads did meanwhile and do since. While it lasts,
      each connection it drops is one of those: none of an active user, and none of nobody. */
  lemma UsersConnectionsGo(s: State, t: Tid, listed: seq<Cid>, active: set<string>, events: seq<Event>, c: Cid)
    requires Reachable(s) && Can(s, Ends(t, BeginDropPass(listed, UsersGone(active))))
    requires Possible(Next(s, Ends(t, BeginDropPass(listed, UsersGone(active)))), events)
    ensures var end := After(Next(s, Ends(t, BeginDropPass(listed, UsersGone(active)))), events);
            && t in s.threads && t in end.threads && s.threads[t].call < end.threads[t].call
            && (s.threads[t].call + 1 < end.threads[t].call || end.threads[t].pc.Idle? || CanFinish(end, t) ==>
                  (c in s.cache && c in s.conns && s.conns[c].card.client.user.Some?
                   && s.conns[c].card.client.user.value !in active) ==> c !in end.cache)
            && (s.threads[t].call + 1 == end.threads[t].call && end.threads[t].pc == Drop(c) ==>
                  c in s.cache && c in s.conns && s.conns[c].card.client.user.Some?
                  && s.conns[c].card.client.user.value !in active)
  {
    hide Reachable;
    DropPassDrops(s, t, listed, UsersGone(active), events, c);
    assert CanBeginDropPass(s, t, listed, UsersGone(active));
    hide Next, After, Possible;
  }

  /** The same of the sign-in that ended. */
  lemma GrantsConnectionsGo(s: State, t: Tid, listed: seq<Cid>, grant: nat, events: seq<Event>, c: Cid)
    requires Reachable(s) && Can(s, Ends(t, BeginDropPass(listed, GrantOver(grant))))
    requires Possible(Next(s, Ends(t, BeginDropPass(listed, GrantOver(grant)))), events)
    ensures var end := After(Next(s, Ends(t, BeginDropPass(listed, GrantOver(grant)))), events);
            && t in s.threads && t in end.threads && s.threads[t].call < end.threads[t].call
            && (s.threads[t].call + 1 < end.threads[t].call || end.threads[t].pc.Idle? || CanFinish(end, t) ==>
                  c in s.cache && c in s.conns && s.conns[c].card.grant == Some(grant) ==> c !in end.cache)
            && (s.threads[t].call + 1 == end.threads[t].call && end.threads[t].pc == Drop(c) ==>
                  c in s.cache && c in s.conns && s.conns[c].card.grant == Some(grant))
  {
    hide Reachable;
    DropPassDrops(s, t, listed, GrantOver(grant), events, c);
    assert CanBeginDropPass(s, t, listed, GrantOver(grant));
    hide Next, After, Possible;
  }

  /** The reaper's pass drops no connection before its time. */
  lemma ReaperDropsTheExpired(s: State, t: Tid, listed: seq<Cid>, events: seq<Event>, c: Cid)
    requires Reachable(s) && Can(s, Ends(t, BeginDropPass(listed, PastLifetime)))
    requires Possible(Next(s, Ends(t, BeginDropPass(listed, PastLifetime))), events)
    ensures var end := After(Next(s, Ends(t, BeginDropPass(listed, PastLifetime))), events);
            && t in s.threads && t in end.threads && s.threads[t].call < end.threads[t].call
            && (s.threads[t].call + 1 == end.threads[t].call && end.threads[t].pc == Drop(c) ==>
                  c in s.cache && c in s.conns && s.now >= s.conns[c].card.openedAt + s.cfg.lifetime)
  {
    hide Reachable;
    DropPassDrops(s, t, listed, PastLifetime, events, c);
    assert CanBeginDropPass(s, t, listed, PastLifetime);
    hide Next, After, Possible;
  }

  lemma SnapshotBeginsDropping(s: State, t: Tid, listed: seq<Cid>)
    requires Inv(s) && CanTakeSnapshot(s, t, listed)
    ensures Dropping(DoTakeSnapshot(s, t, listed), t, s.threads[t].call, listed)
  {
    hide Inv, OpenOn;
    forall c | c in listed ensures Claimed(s, c) {
      ListedIsCached(s, t, listed, c);
      CachedIsClaimed(s, c);
    }
  }

  lemma ListedIsCached(s: State, t: Tid, listed: seq<Cid>, c: Cid)
    requires CanTakeSnapshot(s, t, listed) && c in listed
    ensures c in s.cache
  {
  }

  lemma SnapshotPassDrops(s: State, t: Tid, listed: seq<Cid>, events: seq<Event>, c: Cid)
    requires Reachable(s) && Can(s, Ends(t, TakeSnapshot(listed)))
    requires Possible(Next(s, Ends(t, TakeSnapshot(listed))), events)
    ensures var end := After(Next(s, Ends(t, TakeSnapshot(listed))), events);
            && t in s.threads && t in end.threads && s.threads[t].call <= end.threads[t].call
            && (s.threads[t].call < end.threads[t].call || end.threads[t].pc.Idle? || CanFinish(end, t) ==>
                  c in listed ==> c !in end.cache)
            && (s.threads[t].call == end.threads[t].call && end.threads[t].pc == Drop(c) ==> c in listed)
  {
    hide Inv, Claimed;
    ReachableInv(s);
    hide Reachable;
    NextKeeps(s, Ends(t, TakeSnapshot(listed)));
    SnapshotBeginsDropping(s, t, listed);
    DroppingOverRun(Next(s, Ends(t, TakeSnapshot(listed))), events, t, s.threads[t].call, listed);
  }

  /** Once the deletion of a configured connection is over, none of the connections that were cached with its
      URI, of its list and its user when it looked is cached any more; and it drops no others. */
  lemma DeletionDropsItsOwn(s: State, t: Tid, uri: string, kind: string, user: Option<string>, stores: nat,
                            listed: seq<Cid>, events: seq<Event>, c: Cid)
    requires Reachable(s) && Can(s, Ends(t, TakeSnapshot(listed)))
    requires s.threads[t].del == Some(Deletion(Stored(uri, kind, user), stores))
    requires Possible(Next(s, Ends(t, TakeSnapshot(listed))), events)
    ensures var end := After(Next(s, Ends(t, TakeSnapshot(listed))), events);
            && t in s.threads && t in end.threads && s.threads[t].call <= end.threads[t].call
            && (s.threads[t].call < end.threads[t].call || end.threads[t].pc.Idle? || CanFinish(end, t) ==>
                  (c in s.cache && c in s.conns && s.conns[c].card.uri == uri && s.conns[c].card.kind == kind
                   && s.conns[c].card.client.user == user) ==> c !in end.cache)
            && (s.threads[t].call == end.threads[t].call && end.threads[t].pc == Drop(c) ==>
                  c in s.cache && c in s.conns && s.conns[c].card.uri == uri && s.conns[c].card.kind == kind
                  && s.conns[c].card.client.user == user)
  {
    hide Reachable;
    SnapshotPassDrops(s, t, listed, events, c);
    assert CanTakeSnapshot(s, t, listed);
    hide Next, After, Possible;
  }

  // --- Idle sessions --------------------------------------------------------------------------------

  /** The pass takes the next connection's session exactly when no thread is at work on the connection, it
      has one, and its last use is the idle time ago or longer; a connection left alone is left as it was. */
  lemma IdlePassTakesTheUnused(s: State, t: Tid)
    requires CanIdleNext(s, t)
    ensures var c, s' := s.threads[t].todo[0], DoIdleNext(s, t);
            var takes := s.conns[c].lock.None? && s.conns[c].session.Some?
                         && s.now >= s.conns[c].lastUsed + s.cfg.idle;
            && t in s'.threads && c in s'.conns && s'.threads[t].todo == s.threads[t].todo[1..]
            && (takes ==> s'.threads[t].pc == IdleShut(c, s.conns[c].session.value)
                          && s'.conns[c].session == None && s'.conns[c].lock == Some(t))
            && (!takes ==> s'.threads[t].pc == IdlePass && s'.conns == s.conns && s'.open == s.open)
            && s'.cache == s.cache && s'.conns.Keys == s.conns.Keys
            && forall other :: other in s.conns && other != c ==> s'.conns[other] == s.conns[other]
  {
  }

  lemma ConnectsKeepSession(s: State, t: Tid, e: ConnectEvent, c: Cid)
    requires CanConnects(s, t, e) && c in s.conns
    ensures c in NextConnects(s, t, e).conns && NextConnects(s, t, e).conns[c].session == s.conns[c].session
  {
    hide HasRoom;
    match e {
      case BeginConnect(_, _) =>
      case ClaimSlot(_) =>
      case LockForConnect =>
      case BackOut =>
    }
  }

  lemma StagesKeepSession(s: State, t: Tid, e: OpenEvent, c: Cid)
    requires CanOpens(s, t, e) && !e.KeepSession? && c in s.conns
    ensures c in NextOpens(s, t, e).conns && NextOpens(s, t, e).conns[c].session == s.conns[c].session
  {
    hide Configured, Expired, CanKeepSession, DoKeepSession;
    match e {
      case CheckConfigured =>
      case ReadPassword(_) =>
      case OpenSession(_) =>
      case SetRole(_) =>
      case CloseRefused =>
    }
  }

  lemma OpensKeepSession(s: State, t: Tid, e: OpenEvent, c: Cid)
    requires CanOpens(s, t, e) && c in s.conns
    ensures c in NextOpens(s, t, e).conns && Opening(s, t)
    ensures NextOpens(s, t, e).conns[c].session == s.conns[c].session || s.threads[t].pc.c == c
  {
    hide DoCheckConfigured, DoReadPassword, DoOpenSession, DoSetRole, DoCloseRefused;
    if !e.KeepSession? { StagesKeepSession(s, t, e, c); }
  }

  lemma OpenedHasNone(s: State, t: Tid)
    requires Inv(s) && Opening(s, t)
    ensures s.conns[s.threads[t].pc.c].session == None
  {
    assert ThreadOk(s, t);
  }

  /** The block on the connection ends with its session lost. */
  predicate Loses(s: State, e: Event, c: Cid) {
    e.Uses? && e.uses == EndBlock(true) && e.t in s.threads && s.threads[e.t].pc.Block? && s.threads[e.t].pc.c == c
  }

  lemma UsesKeepSession(s: State, t: Tid, e: UseEvent, c: Cid)
    requires CanUses(s, t, e) && c in s.conns
    ensures c in NextUses(s, t, e).conns
    ensures NextUses(s, t, e).conns[c].session == s.conns[c].session || Loses(s, Uses(t, e), c)
  {
    hide Expired;
    match e {
      case BeginLookup(_, _, _) =>
      case CheckFound =>
      case LockForUse =>
      case EndBlock(_) =>
      case CloseLost =>
      case LeaveBlock =>
      case PopForClose =>
    }
  }

  lemma EndsKeepSession(s: State, t: Tid, e: EndEvent, c: Cid)
    requires CanEnds(s, t, e) && c in s.conns
    ensures c in NextEnds(s, t, e).conns
    ensures NextEnds(s, t, e).conns[c].session == s.conns[c].session
            || (e.TakeSession? && s.threads[t].pc == Take(c))
            || (e.IdleNext? && s.conns[c].lock.None? && s.now >= s.conns[c].lastUsed + s.cfg.idle)
  {
    hide Expired;
    match e {
      case SetClosed =>
      case TakeSession =>
      case CloseTaken =>
      case BeginDropPass(_, _) =>
      case BeginIdlePass(_) =>
      case BeginDelete(_) =>
      case TakeSnapshot(_) =>
      case DropNext =>
      case IdleNext =>
      case CloseIdle =>
      case Finish =>
    }
  }

  lemma TakenIsOut(s: State, t: Tid, c: Cid)
    requires Inv(s) && t in s.threads && s.threads[t].pc == Take(c)
    ensures c !in s.cache
  {
    assert ThreadOk(s, t);
  }

  /** A connection loses its session only in a block that loses it, when the connection is closed and out of
      the cache, or to the idle pass, with no thread at work on it and its last use the idle time ago. */
  lemma SessionGoesOnlyWhen(s: State, e: Event, c: Cid)
    requires Reachable(s) && Can(s, e) && c in s.conns && s.conns[c].session.Some?
    ensures c in Next(s, e).conns
    ensures Next(s, e).conns[c].session == s.conns[c].session
            || Loses(s, e, c)
            || (e.Ends? && e.ends.TakeSession? && c !in s.cache)
            || (e.Ends? && e.ends.IdleNext? && s.conns[c].lock.None? && s.now >= s.conns[c].lastUsed + s.cfg.idle)
  {
    ReachableInv(s);
    hide Reachable;
    SessionGoes(s, e, c);
  }

  lemma SessionGoes(s: State, e: Event, c: Cid)
    requires Inv(s) && Can(s, e) && c in s.conns && s.conns[c].session.Some?
    ensures c in Next(s, e).conns
    ensures Next(s, e).conns[c].session == s.conns[c].session
            || Loses(s, e, c)
            || (e.Ends? && e.ends.TakeSession? && c !in s.cache)
            || (e.Ends? && e.ends.IdleNext? && s.conns[c].lock.None? && s.now >= s.conns[c].lastUsed + s.cfg.idle)
  {
    hide Inv, Loses, NextConnects, NextOpens, NextUses, NextEnds, CanConnects, CanUses;
    match e
    case World(_) =>
    case Connects(t, connects) => ConnectsKeepSession(s, t, connects, c);
    case Opens(t, opens) =>
      OpensKeepSession(s, t, opens, c);
      OpenedHasNone(s, t);
    case Uses(t, uses) => UsesKeepSession(s, t, uses, c);
    case Ends(t, ends) =>
      EndsKeepSession(s, t, ends, c);
      if t in s.threads && s.threads[t].pc == Take(c) { TakenIsOut(s, t, c); }
  }

  /** Over the events, no block on the connection loses its session. */
  ghost predicate LosesNever(s: State, events: seq<Event>, c: Cid)
    requires Possible(s, events)
    decreases |events|
  {
    events == [] || (!Loses(s, events[0], c) && LosesNever(Next(s, events[0]), events[1..], c))
  }

  lemma {:induction false} SessionStays(s: State, events: seq<Event>, c: Cid, from: nat)
    requires Inv(s) && Possible(s, events) && LosesNever(s, events, c)
    requires Claimed(s, c) && s.conns[c].session.Some? && from <= s.conns[c].lastUsed && from <= s.now
    requires c in After(s, events).cache && After(s, events).now < from + s.cfg.idle
    ensures c in After(s, events).conns && After(s, events).conns[c].session == s.conns[c].session
    decreases |events|
  {
    hide Inv, Can, Next, Loses;
    if events != [] {
      var e := events[0];
      NextKeeps(s, e);
      SettingsStay(s, events);
      ClockRuns(s, events);
      if c !in s.cache { StaysOutForEver(s, events, c); }
      SessionGoes(s, e, c);
      StaysClaimed(s, e, c);
      LeftIsWhatWasLeft(s, e, c);
      ClockAndSettings(s, e);
      SessionStays(Next(s, e), events[1..], c, from);
    }
  }

  lemma {:induction false} ClockRuns(s: State, events: seq<Event>)
    requires Inv(s) && Possible(s, events)
    ensures s.now <= After(s, events).now
    decreases |events|
  {
    hide Inv, Can, Next;
    if events != [] {
      NextKeeps(s, events[0]);
      ClockAndSettings(s, events[0]);
      ClockRuns(Next(s, events[0]), events[1..]);
    }
  }

  /** From the end of a block that left the connection its session, and for as long as the idle time since
      has not passed, the session stays the connection's in every run in which the connection stays cached
      and no block on it loses the session: no pass closes it, whatever else is going on. */
  lemma UsedSessionStaysOpen(s: State, t: Tid, events: seq<Event>, c: Cid)
    requires Reachable(s) && CanLeaveBlock(s, t) && s.threads[t].pc.c == c && s.conns[c].session.Some?
    requires Possible(Next(s, Uses(t, LeaveBlock)), events) && LosesNever(Next(s, Uses(t, LeaveBlock)), events, c)
    requires var end := After(Next(s, Uses(t, LeaveBlock)), events); c in end.cache && end.now < s.now + s.cfg.idle
    ensures var end := After(Next(s, Uses(t, LeaveBlock)), events);
            c in end.conns && end.conns[c].session == s.conns[c].session
  {
    hide Inv, LosesNever;
    ReachableInv(s);
    hide Reachable;
    ThreadIsOk(s, t);
    NextKeeps(s, Uses(t, LeaveBlock));
    SessionStays(Next(s, Uses(t, LeaveBlock)), events, c, s.now);
  }
}
