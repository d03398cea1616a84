/** Deleting a configured connection revokes it, the limits hold, and a restarted session is
    reported, under every interleaving. */
module ConnectionRevocation {
  import opened Wrappers
  import opened ConnectionTable
  import opened ConnectionCache
  import opened ConnectionInvariants
  import opened ConnectionSteps

  // --- Deletion revokes ---------------------------------------------------------------------------

  /** Opening a session, past the check that the URI is configured. */
  predicate PastCheck(pc: Pc) {
    pc.Open? && !pc.stage.Check?
  }

  /** No session, and none on its way. */
  ghost predicate Quiet(s: State, c: Cid) {
    && c in s.conns && s.conns[c].session == None
    && (s.conns[c].lock.Some? && s.conns[c].lock.value in s.threads ==> !PastCheck(s.threads[s.conns[c].lock.value].pc))
  }

  /** A cached connection whose every opening asks for the key. */
  ghost predicate Of(s: State, c: Cid, key: Key) {
    c in s.cache && c in s.conns && KeyOf(s.conns[c].card) == key
  }

  ghost predicate Revoked(s: State, key: Key) {
    key !in s.secrets && forall c :: c in s.cache && Of(s, c, key) ==> Quiet(s, c)
  }

  /** A deletion under way: nothing was stored since, and what is not quiet is still to be dropped. */
  ghost predicate Revoking(s: State, t: Tid)
    requires t in s.threads && s.threads[t].del.Some?
  {
    var th := s.threads[t];
    var key := th.del.value.key;
    && (th.pc.Snapshot? || th.pc.Pass? || th.pc.Drop? || th.pc.Take? || th.pc.Shut?)
    && th.del.value.stores <= Stores(s, key)
    && (th.del.value.stores == Stores(s, key) ==>
          && key !in s.secrets
          && (!th.pc.Snapshot? ==> forall c :: c in s.cache && Of(s, c, key) ==> c in th.todo || Quiet(s, c)))
  }

  ghost predicate RevInv(s: State) {
    && (forall key :: key in s.deleted ==> s.deleted[key] <= Stores(s, key))
    && (forall key :: key in s.deleted && s.deleted[key] == Stores(s, key) ==> Revoked(s, key))
    && (forall t :: t in s.threads && s.threads[t].del.Some? ==> Revoking(s, t))
  }

  // A quiet connection on a key that is not configured stays quiet: only the check leads past the
  // check, and only an opening past the check leads to a session.

  lemma CheckLeadsPastCheck(s: State, t: Tid)
    requires CanCheckConfigured(s, t) && PastCheck(DoCheckConfigured(s, t).threads[t].pc)
    ensures DoCheckConfigured(s, t).threads[t].pc.c == s.threads[t].pc.c
    ensures Configured(s, s.conns[s.threads[t].pc.c].card)
  {
  }

  /** What an opening of a connection needs to be there. */
  ghost predicate Needs(card: Card, key: Key) {
    key == if card.grant.Some? then SignIn(card.grant.value) else Stored(card.uri, card.kind, card.client.user)
  }

  /** Storing it lets an opening that checks next go on: to its password or, where a sign-in has given that
      already, to the session. */
  lemma StoringLetsOn(s: State, t: Tid, c: Cid, use: bool, key: Key)
    requires CanCheckConfigured(s, t) && s.threads[t].pc == Open(c, use, Check) && Needs(s.conns[c].card, key)
    ensures CanCheckConfigured(NextWorld(s, Store(key)), t)
    ensures var s' := DoCheckConfigured(NextWorld(s, Store(key)), t);
            && t in s'.threads && s'.conns == s.conns
            && s'.threads[t].pc == Open(c, use, if s.conns[c].card.grant.Some? then Dial else Read)
  {
  }

  /** Taking it away makes the opening fail, and the lock is free again. */
  lemma TakingAwayFails(s: State, t: Tid, c: Cid, use: bool, key: Key)
    requires CanCheckConfigured(s, t) && s.threads[t].pc == Open(c, use, Check) && Needs(s.conns[c].card, key)
    ensures CanCheckConfigured(NextWorld(s, Forget(key)), t)
    ensures var s' := DoCheckConfigured(NextWorld(s, Forget(key)), t);
            && t in s'.threads && c in s'.conns && s'.conns[c].lock == None
            && s'.threads[t].pc == if use then Pass else GiveBack(c)
  {
  }

  lemma OtherStagesArePastCheck(s: State, t: Tid, e: OpenEvent)
    requires CanOpens(s, t, e) && !e.CheckConfigured?
    ensures Opening(s, t) && PastCheck(s.threads[t].pc)
  {
  }

  lemma StagesGoOnWithTheirConnection(s: State, t: Tid, e: OpenEvent)
    requires CanOpens(s, t, e) && !e.KeepSession?
    ensures t in NextOpens(s, t, e).threads
    ensures NextOpens(s, t, e).threads[t].pc.Open? ==> NextOpens(s, t, e).threads[t].pc.c == s.threads[t].pc.c
  {
    hide Configured, Expired, CanKeepSession, DoKeepSession;
    match e {
      case CheckConfigured =>
      case ReadPassword(_) =>
      case OpenSession(_) =>
      case SetRole(_) =>
      case CloseRefused =>
    }
  }

  lemma OpeningGoesOnWithItsConnection(s: State, t: Tid, e: OpenEvent)
    requires CanOpens(s, t, e)
    ensures Opening(s, t) && t in NextOpens(s, t, e).threads
    ensures NextOpens(s, t, e).threads[t].pc.Open? ==> NextOpens(s, t, e).threads[t].pc.c == s.threads[t].pc.c
  {
    hide DoCheckConfigured, DoReadPassword, DoOpenSession, DoSetRole, DoCloseRefused;
    if !e.KeepSession? { StagesGoOnWithTheirConnection(s, t, e); }
  }

  lemma ConnectsNotPastCheck(s: State, t: Tid, e: ConnectEvent)
    requires CanConnects(s, t, e)
    ensures t in NextConnects(s, t, e).threads
    ensures PastCheck(NextConnects(s, t, e).threads[t].pc) ==> NextConnects(s, t, e).threads[t].pc == s.threads[t].pc
  {
    hide HasRoom;
    match e {
      case BeginConnect(_, _) =>
      case ClaimSlot(_) =>
      case LockForConnect =>
      case BackOut =>
    }
  }

  lemma UsesNotPastCheck(s: State, t: Tid, e: UseEvent)
    requires CanUses(s, t, e)
    ensures t in NextUses(s, t, e).threads
    ensures PastCheck(NextUses(s, t, e).threads[t].pc) ==> NextUses(s, t, e).threads[t].pc == s.threads[t].pc
  {
    hide Expired;
    match e {
      case BeginLookup(_, _, _) =>
      case CheckFound =>
      case LockForUse =>
      case EndBlock(_) =>
      case CloseLost =>
      case LeaveBlock =>
      case PopForClose =>
    }
  }

  lemma EndsNotPastCheck(s: State, t: Tid, e: EndEvent)
    requires CanEnds(s, t, e)
    ensures t in NextEnds(s, t, e).threads
    ensures PastCheck(NextEnds(s, t, e).threads[t].pc) ==> NextEnds(s, t, e).threads[t].pc == s.threads[t].pc
  {
    hide Expired, Stores, Matches, ToDrop;
    match e {
      case SetClosed =>
      case TakeSession =>
      case CloseTaken =>
      case BeginDropPass(_, _) =>
      case BeginIdlePass(_) =>
      case BeginDelete(_) =>
      case TakeSnapshot(_) =>
      case DropNext =>
      case IdleNext =>
      case CloseIdle =>
      case Finish =>
    }
  }

  lemma PastCheckNeedsConfigured(s: State, e: Event)
    requires Can(s, e) && !e.World? && e.t in Next(s, e).threads && PastCheck(Next(s, e).threads[e.t].pc)
    ensures e.t in s.threads && s.threads[e.t].pc.Open? && s.threads[e.t].pc.c == Next(s, e).threads[e.t].pc.c
    ensures PastCheck(s.threads[e.t].pc)
            || (&& s.threads[e.t].pc.c in s.conns
                && var card := s.conns[s.threads[e.t].pc.c].card;
                   (if card.grant.Some? then SignIn(card.grant.value)
                    else Stored(card.uri, card.kind, card.client.user)) in s.secrets)
  {
    hide NextConnects, NextUses, NextEnds, CanConnects, CanUses, CanEnds;
    hide DoReadPassword, DoOpenSession, DoSetRole, DoCloseRefused, DoKeepSession, DoCheckConfigured;
    ThreadExists(s, e);
    match e
    case Connects(t, connects) => ConnectsNotPastCheck(s, t, connects);
    case Opens(t, opens) =>
      if opens.CheckConfigured? {
        CheckLeadsPastCheck(s, t);
      } else {
        OtherStagesArePastCheck(s, t, opens);
        OpeningGoesOnWithItsConnection(s, t, opens);
      }
    case Uses(t, uses) => UsesNotPastCheck(s, t, uses);
    case Ends(t, ends) => EndsNotPastCheck(s, t, ends);
  }

  lemma StagesGiveNoSession(s: State, t: Tid, e: OpenEvent, c: Cid)
    requires CanOpens(s, t, e) && !e.KeepSession? && c in s.conns && s.conns[c].session == None
    ensures c in NextOpens(s, t, e).conns && NextOpens(s, t, e).conns[c].session == None
  {
    hide Configured, Expired;
    match e {
      case CheckConfigured =>
      case ReadPassword(_) =>
      case OpenSession(_) =>
      case SetRole(_) =>
      case CloseRefused =>
    }
  }

  lemma KeepingOpensItsOwn(s: State, t: Tid, c: Cid)
    requires CanKeepSession(s, t) && c in s.conns && s.conns[c].session == None
    ensures var s' := DoKeepSession(s, t);
            c in s'.conns && s'.conns[c].session.Some? ==>
              t in s.threads && PastCheck(s.threads[t].pc) && s.threads[t].pc.c == c
  {
  }

  lemma OpensSession(s: State, t: Tid, e: OpenEvent, c: Cid, s': State)
    requires CanOpens(s, t, e) && c in s.conns && s.conns[c].session == None
    requires s' == NextOpens(s, t, e) && c in s'.conns && s'.conns[c].session.Some?
    ensures t in s.threads && PastCheck(s.threads[t].pc) && s.threads[t].pc.c == c
  {
    hide DoCheckConfigured, DoReadPassword, DoOpenSession, DoSetRole, DoCloseRefused, DoKeepSession;
    hide CanCheckConfigured, CanReadPassword, CanOpenSession, CanSetRole, CanCloseRefused, CanKeepSession, PastCheck;
    if e.KeepSession? { KeepingOpensItsOwn(s, t, c); } else { StagesGiveNoSession(s, t, e, c); }
  }

  lemma ConnectsGiveNoSession(s: State, t: Tid, e: ConnectEvent, c: Cid)
    requires CanConnects(s, t, e) && c in s.conns && s.conns[c].session == None
    ensures c in NextConnects(s, t, e).conns && NextConnects(s, t, e).conns[c].session == None
  {
    hide HasRoom;
    match e {
      case BeginConnect(_, _) =>
      case ClaimSlot(_) =>
      case LockForConnect =>
      case BackOut =>
    }
  }

  lemma UsesGiveNoSession(s: State, t: Tid, e: UseEvent, c: Cid)
    requires CanUses(s, t, e) && c in s.conns && s.conns[c].session == None
    ensures c in NextUses(s, t, e).conns && NextUses(s, t, e).conns[c].session == None
  {
    hide Expired;
    match e {
      case BeginLookup(_, _, _) =>
      case CheckFound =>
      case LockForUse =>
      case EndBlock(_) =>
      case CloseLost =>
      case LeaveBlock =>
      case PopForClose =>
    }
  }

  lemma EndsGiveNoSession(s: State, t: Tid, e: EndEvent, c: Cid)
    requires CanEnds(s, t, e) && c in s.conns && s.conns[c].session == None
    ensures c in NextEnds(s, t, e).conns && NextEnds(s, t, e).conns[c].session == None
  {
    hide Expired;
    match e {
      case SetClosed =>
      case TakeSession =>
      case CloseTaken =>
      case BeginDropPass(_, _) =>
      case BeginIdlePass(_) =>
      case BeginDelete(_) =>
      case TakeSnapshot(_) =>
      case DropNext =>
      case IdleNext =>
      case CloseIdle =>
      case Finish =>
    }
  }

  lemma SessionNeedsOpening(s: State, e: Event, c: Cid)
    requires Can(s, e) && c in s.conns && s.conns[c].session == None
    requires c in Next(s, e).conns && Next(s, e).conns[c].session.Some?
    ensures !e.World? && e.t in s.threads && PastCheck(s.threads[e.t].pc) && s.threads[e.t].pc.c == c
  {
    hide NextConnects, NextOpens, NextUses, NextEnds, CanConnects, CanOpens, CanUses, CanEnds;
    match e
    case World(_) =>
    case Connects(t, connects) => ConnectsGiveNoSession(s, t, connects, c);
    case Opens(t, opens) => OpensSession(s, t, opens, c, Next(s, e));
    case Uses(t, uses) => UsesGiveNoSession(s, t, uses, c);
    case Ends(t, ends) => EndsGiveNoSession(s, t, ends, c);
  }

  /** A thread past the check has the lock of the connection it opens. */
  lemma PastCheckHolds(s: State, t: Tid, c: Cid)
    requires Inv(s) && t in s.threads && PastCheck(s.threads[t].pc) && s.threads[t].pc.c == c
    ensures c in s.conns && s.conns[c].lock == Some(t)
  {
    assert ThreadOk(s, t);
  }

  lemma LockHolds(s: State, c: Cid)
    requires Inv(s) && c in s.conns && s.conns[c].lock.Some?
    ensures s.conns[c].lock.value in s.threads && Holds(s.threads[s.conns[c].lock.value].pc) == Some(c)
  {
    assert ConnOk(s, c);
  }

  lemma QuietStays(s: State, e: Event, c: Cid)
    requires Inv(s) && Can(s, e) && Quiet(s, c)
    requires KeyOf(s.conns[c].card) !in s.secrets
    ensures Quiet(Next(s, e), c)
  {
    hide NextConnects, NextOpens, NextUses, NextEnds, CanConnects, CanOpens, CanUses, CanEnds, Inv;
    var s' := Next(s, e);
    if e.World? { return; }
    NextTurns(s, e);
    NextKeeps(s, e);
    if s'.conns[c].session.Some? {
      SessionNeedsOpening(s, e, c);
      PastCheckHolds(s, e.t, c);
    }
    if s'.conns[c].lock.Some? {
      LockHolds(s', c);
      var t := s'.conns[c].lock.value;
      if PastCheck(s'.threads[t].pc) {
        if t == e.t {
          PastCheckNeedsConfigured(s, e);
        }
        if PastCheck(s.threads[t].pc) {
          PastCheckHolds(s, t, c);
        }
      }
    }
  }

  // Connections enter the cache only by a claim, which makes them quiet ones.

  predicate Claims(s: State, e: Event) {
    e.Connects? && e.connects.ClaimSlot? && e.t in s.threads && s.threads[e.t].pc.Claiming?
  }

  lemma ConnectsAddByClaim(s: State, t: Tid, e: ConnectEvent, c: Cid)
    requires CanConnects(s, t, e) && c in NextConnects(s, t, e).cache && c !in s.cache
    ensures e.ClaimSlot? && t in s.threads && s.threads[t].pc == Claiming(c)
    ensures c in s.conns && s.cache <= s.conns.Keys && e.readings.Keys == s.cache && HasRoom(s, c, e.readings)
  {
  }

  lemma OpensAddNothing(s: State, t: Tid, e: OpenEvent)
    requires CanOpens(s, t, e)
    ensures NextOpens(s, t, e).cache <= s.cache
  {
    hide Configured, Expired;
    match e {
      case CheckConfigured =>
      case ReadPassword(_) =>
      case OpenSession(_) =>
      case SetRole(_) =>
      case CloseRefused =>
      case KeepSession =>
    }
  }

  lemma UsesAddNothing(s: State, t: Tid, e: UseEvent)
    requires CanUses(s, t, e)
    ensures NextUses(s, t, e).cache <= s.cache
  {
    hide Expired;
    match e {
      case BeginLookup(_, _, _) =>
      case CheckFound =>
      case LockForUse =>
      case EndBlock(_) =>
      case CloseLost =>
      case LeaveBlock =>
      case PopForClose =>
    }
  }

  lemma EndsAddNothing(s: State, t: Tid, e: EndEvent)
    requires CanEnds(s, t, e)
    ensures NextEnds(s, t, e).cache <= s.cache
  {
  }

  lemma WorldAddsNothing(s: State, e: WorldEvent)
    ensures NextWorld(s, e).cache == s.cache
  {
  }

  lemma OnlyConnectsAdd(s: State, e: Event, c: Cid)
    requires Can(s, e) && c in Next(s, e).cache && c !in s.cache
    ensures e.Connects?
  {
    hide NextWorld, NextConnects, NextOpens, NextUses, NextEnds, CanConnects, CanOpens, CanUses, CanEnds;
    match e
    case World(w) => WorldAddsNothing(s, w);
    case Opens(t, opens) => OpensAddNothing(s, t, opens);
    case Uses(t, uses) => UsesAddNothing(s, t, uses);
    case Ends(t, ends) => EndsAddNothing(s, t, ends);
    case Connects(_, _) =>
  }

  lemma OnlyClaimsAdd(s: State, e: Event, c: Cid)
    requires Can(s, e) && c in Next(s, e).cache && c !in s.cache
    ensures Claims(s, e) && s.threads[e.t].pc.c == c
  {
    hide NextWorld, NextConnects, NextOpens, NextUses, NextEnds, CanConnects, CanOpens, CanUses, CanEnds, HasRoom;
    OnlyConnectsAdd(s, e, c);
    ConnectsAddByClaim(s, e.t, e.connects, c);
  }

  lemma ClaimIsQuiet(s: State, t: Tid, readings: map<Cid, nat>, c: Cid)
    requires CanClaimSlot(s, t, readings) && s.threads[t].pc == Claiming(c) && Around(s, t, Some(c), None)
    requires c in DoClaimSlot(s, t, readings).cache && c !in s.cache
    ensures Quiet(DoClaimSlot(s, t, readings), c)
  {
    hide HasRoom;
  }

  lemma ClaimedIsQuiet(s: State, e: Event, c: Cid)
    requires Inv(s) && Can(s, e) && c in Next(s, e).cache && c !in s.cache
    ensures Quiet(Next(s, e), c)
  {
    hide Inv, Quiet, Around;
    OnlyClaimsAdd(s, e, c);
    assert Next(s, e) == DoClaimSlot(s, e.t, e.connects.readings);
    hide Next, DoClaimSlot;
    InvAround(s, e.t, Some(c), None);
    ClaimIsQuiet(s, e.t, e.connects.readings, c);
  }

  // Nothing but a store makes a key configured.

  predicate SecretsShrink(s: State, s': State) {
    s'.secrets <= s.secrets && s'.stores == s.stores
  }

  lemma ConnectsKeepSecrets(s: State, t: Tid, e: ConnectEvent)
    requires CanConnects(s, t, e)
    ensures SecretsShrink(s, NextConnects(s, t, e))
  {
  }

  lemma OpensKeepSecrets(s: State, t: Tid, e: OpenEvent)
    requires CanOpens(s, t, e)
    ensures SecretsShrink(s, NextOpens(s, t, e))
  {
    hide Configured, Expired;
    match e {
      case CheckConfigured =>
      case ReadPassword(_) =>
      case OpenSession(_) =>
      case SetRole(_) =>
      case CloseRefused =>
      case KeepSession =>
    }
  }

  lemma UsesKeepSecrets(s: State, t: Tid, e: UseEvent)
    requires CanUses(s, t, e)
    ensures SecretsShrink(s, NextUses(s, t, e))
  {
  }

  lemma EndsKeepSecrets(s: State, t: Tid, e: EndEvent)
    requires CanEnds(s, t, e)
    ensures SecretsShrink(s, NextEnds(s, t, e))
  {
    hide Expired, Matches, ToDrop;
    match e {
      case SetClosed =>
      case TakeSession =>
      case CloseTaken =>
      case BeginDropPass(_, _) =>
      case BeginIdlePass(_) =>
      case BeginDelete(_) =>
      case TakeSnapshot(_) =>
      case DropNext =>
      case IdleNext =>
      case CloseIdle =>
      case Finish =>
    }
  }

  lemma OnlyStoresConfigure(s: State, e: Event, key: Key)
    requires Can(s, e)
    ensures Stores(s, key) <= Stores(Next(s, e), key)
    ensures e != World(Store(key)) ==> Stores(Next(s, e), key) == Stores(s, key)
    ensures key !in s.secrets && Stores(Next(s, e), key) == Stores(s, key) ==> key !in Next(s, e).secrets
  {
    hide NextConnects, NextOpens, NextUses, NextEnds, CanConnects, CanOpens, CanUses, CanEnds;
    match e
    case World(_) =>
    case Connects(t, connects) => ConnectsKeepSecrets(s, t, connects);
    case Opens(t, opens) => OpensKeepSecrets(s, t, opens);
    case Uses(t, uses) => UsesKeepSecrets(s, t, uses);
    case Ends(t, ends) => EndsKeepSecrets(s, t, ends);
  }

  lemma CardStays(s: State, e: Event, c: Cid)
    requires Inv(s) && Can(s, e) && c in s.conns
    ensures c in Next(s, e).conns && Next(s, e).conns[c].card == s.conns[c].card
  {
    hide NextConnects, NextOpens, NextUses, NextEnds, CanConnects, CanOpens, CanUses, CanEnds, Inv;
    if !e.World? {
      NextTurns(s, e);
      var oc: Option<Cid>, x: Option<Sid> :| LocalStep(s, Next(s, e), e.t, oc, x);
    }
  }

  /** What one event does to the cached connections of a key that is not configured. */
  lemma QuietOrAsBefore(s: State, e: Event, key: Key, c: Cid)
    requires Inv(s) && Can(s, e) && key !in s.secrets && Of(Next(s, e), c, key)
    ensures Quiet(Next(s, e), c) || (Of(s, c, key) && !Quiet(s, c))
  {
    hide Can, Next, Quiet, Inv;
    if c !in s.cache {
      ClaimedIsQuiet(s, e, c);
    } else {
      CachedAreKnown(s, [c]);
      CardStays(s, e, c);
      if Quiet(s, c) { QuietStays(s, e, c); }
    }
  }

  lemma RevokedStays(s: State, e: Event, key: Key)
    requires Inv(s) && Can(s, e) && Revoked(s, key) && Stores(Next(s, e), key) == Stores(s, key)
    ensures Revoked(Next(s, e), key)
  {
    hide Can, Next, Quiet, Of, Inv, Stores;
    OnlyStoresConfigure(s, e, key);
    forall c | c in Next(s, e).cache && Of(Next(s, e), c, key) ensures Quiet(Next(s, e), c) {
      QuietOrAsBefore(s, e, key, c);
      OfCached(s, c, key);
    }
  }

  lemma OfCached(s: State, c: Cid, key: Key)
    ensures Of(s, c, key) ==> c in s.cache
  {
  }
  // A deletion under way.

  predicate Deletes(pc: Pc) {
    pc.Snapshot? || pc.Pass? || pc.Drop? || pc.Take? || pc.Shut?
  }

  lemma ConnectsBeginNoDeletion(s: State, t: Tid, e: ConnectEvent)
    requires CanConnects(s, t, e)
    ensures t in s.threads && t in NextConnects(s, t, e).threads && !Deletes(s.threads[t].pc)
    ensures s.threads[t].del == None ==> NextConnects(s, t, e).threads[t].del == None
    ensures NextConnects(s, t, e).deleted == s.deleted
  {
    hide HasRoom;
  }

  lemma OpensBeginNoDeletion(s: State, t: Tid, e: OpenEvent)
    requires CanOpens(s, t, e)
    ensures t in s.threads && t in NextOpens(s, t, e).threads && !Deletes(s.threads[t].pc)
    ensures s.threads[t].del == None ==> NextOpens(s, t, e).threads[t].del == None
  {
    hide Configured, Expired;
    match e {
      case CheckConfigured =>
      case ReadPassword(_) =>
      case OpenSession(_) =>
      case SetRole(_) =>
      case CloseRefused =>
      case KeepSession =>
    }
  }

  lemma OpensDeleteNothing(s: State, t: Tid, e: OpenEvent)
    requires CanOpens(s, t, e)
    ensures NextOpens(s, t, e).deleted == s.deleted
  {
    hide Configured, Expired;
    match e {
      case CheckConfigured =>
      case ReadPassword(_) =>
      case OpenSession(_) =>
      case SetRole(_) =>
      case CloseRefused =>
      case KeepSession =>
    }
  }

  lemma LookupBeginsNoDeletion(s: State, t: Tid, e: UseEvent)
    requires CanUses(s, t, e) && (e.BeginLookup? || e.CheckFound?)
    ensures t in s.threads && t in NextUses(s, t, e).threads && !Deletes(s.threads[t].pc)
    ensures s.threads[t].del == None ==> NextUses(s, t, e).threads[t].del == None
  {
    hide Expired;
    match e {
      case BeginLookup(_, _, _) =>
      case CheckFound =>
    }
  }

  lemma UsesBeginNoDeletion(s: State, t: Tid, e: UseEvent)
    requires CanUses(s, t, e)
    ensures t in s.threads && t in NextUses(s, t, e).threads && !Deletes(s.threads[t].pc)
    ensures s.threads[t].del == None ==> NextUses(s, t, e).threads[t].del == None
  {
    match e {
      case BeginLookup(_, _, _) => LookupBeginsNoDeletion(s, t, e);
      case CheckFound => LookupBeginsNoDeletion(s, t, e);
      case LockForUse =>
      case EndBlock(_) =>
      case CloseLost =>
      case LeaveBlock =>
      case PopForClose =>
    }
  }

  lemma UsesDeleteNothing(s: State, t: Tid, e: UseEvent)
    requires CanUses(s, t, e)
    ensures NextUses(s, t, e).deleted == s.deleted
  {
    hide Expired;
    match e {
      case BeginLookup(_, _, _) =>
      case CheckFound =>
      case LockForUse =>
      case EndBlock(_) =>
      case CloseLost =>
      case LeaveBlock =>
      case PopForClose =>
    }
  }

  lemma EndsBeginDeletion(s: State, t: Tid, e: EndEvent)
    requires CanEnds(s, t, e) && !e.BeginDelete?
    ensures t in s.threads && t in NextEnds(s, t, e).threads
    ensures s.threads[t].del == None ==> NextEnds(s, t, e).threads[t].del == None
    ensures !e.Finish? ==> NextEnds(s, t, e).deleted == s.deleted
  {
    hide Expired, Stores, Matches, ToDrop;
    match e {
      case SetClosed =>
      case TakeSession =>
      case CloseTaken =>
      case BeginDropPass(_, _) =>
      case BeginIdlePass(_) =>
      case TakeSnapshot(_) =>
      case DropNext =>
      case IdleNext =>
      case CloseIdle =>
      case Finish =>
    }
  }

  /** What a deletion's own thread does to it: what leaves its list has left the cache. */
  lemma DeletionAdvances(s: State, t: Tid, e: EndEvent)
    requires CanEnds(s, t, e) && t in s.threads && s.threads[t].del.Some? && Deletes(s.threads[t].pc)
    requires !e.TakeSnapshot? && !e.Finish? && !e.BeginDelete?
    ensures var s' := NextEnds(s, t, e);
            && t in s'.threads && s'.threads[t].del == s.threads[t].del
            && Deletes(s'.threads[t].pc) && !s'.threads[t].pc.Snapshot? && !s.threads[t].pc.Snapshot?
            && forall c :: c in s.threads[t].todo && c in s'.cache ==> c in s'.threads[t].todo
  {
    hide Expired, Stores, Matches, ToDrop;
    match e {
      case SetClosed =>
      case TakeSession =>
      case CloseTaken =>
      case BeginDropPass(_, _) =>
      case BeginIdlePass(_) =>
      case DropNext =>
      case IdleNext =>
      case CloseIdle =>
    }
  }

  lemma DeletionGoesOn(s: State, t: Tid, e: EndEvent, key: Key)
    requires Inv(s) && RevInv(s) && CanEnds(s, t, e) && !e.TakeSnapshot? && !e.Finish? && !e.BeginDelete?
    requires t in s.threads && s.threads[t].del.Some? && s.threads[t].del.value.key == key
    ensures t in NextEnds(s, t, e).threads && NextEnds(s, t, e).threads[t].del.Some? && Revoking(NextEnds(s, t, e), t)
  {
    hide Inv, CanEnds, NextEnds, Quiet, Of;
    assert Revoking(s, t);
    DeletionAdvances(s, t, e);
    var s' := NextEnds(s, t, e);
    var ev := Ends(t, e);
    assert Can(s, ev) && Next(s, ev) == s';
    OnlyStoresConfigure(s, ev, key);
    if s.threads[t].del.value.stores == Stores(s, key) {
      forall c | c in s'.cache && Of(s', c, key) ensures c in s'.threads[t].todo || Quiet(s', c) {
        QuietOrAsBefore(s, ev, key, c);
        OfCached(s, c, key);
      }
    }
  }

  lemma SnapshotCovers(s: State, t: Tid, todo: seq<Cid>, key: Key)
    requires Inv(s) && RevInv(s) && CanTakeSnapshot(s, t, todo) && s.threads[t].del.value.key == key
    ensures Revoking(DoTakeSnapshot(s, t, todo), t)
  {
    hide Inv, Quiet;
    assert Revoking(s, t);
  }

  lemma BegunDeletionRevokes(s: State, t: Tid, key: Key)
    requires CanBeginDelete(s, t, key)
    ensures Revoking(DoBeginDelete(s, t, key), t)
  {
  }

  lemma OthersDeletionGoesOn(s: State, e: Event, t: Tid, key: Key)
    requires Inv(s) && RevInv(s) && Can(s, e) && (e.World? || e.t != t)
    requires t in s.threads && s.threads[t].del.Some? && s.threads[t].del.value.key == key
    ensures t in Next(s, e).threads && Next(s, e).threads[t] == s.threads[t] && Revoking(Next(s, e), t)
  {
    hide Inv, Can, Quiet, Of, NextConnects, NextOpens, NextUses, NextEnds, Stores;
    assert Revoking(s, t);
    OnlyStoresConfigure(s, e, key);
    if !e.World? {
      NextTurns(s, e);
    }
    var s' := Next(s, e);
    if s.threads[t].del.value.stores == Stores(s', key) {
      forall c | c in s'.cache && Of(s', c, key) && !s.threads[t].pc.Snapshot?
        ensures c in s.threads[t].todo || Quiet(s', c)
      {
        QuietOrAsBefore(s, e, key, c);
        OfCached(s, c, key);
      }
    }
  }
  lemma OwnPassKeepsRevoking(s: State, t: Tid, e: EndEvent)
    requires Inv(s) && RevInv(s) && CanEnds(s, t, e) && !e.BeginDelete? && !e.TakeSnapshot? && !e.Finish?
    requires t in NextEnds(s, t, e).threads && NextEnds(s, t, e).threads[t].del.Some?
    ensures Revoking(NextEnds(s, t, e), t)
  {
    hide Inv, RevInv, Revoking, NextEnds, CanEnds;
    EndsBeginDeletion(s, t, e);
    DeletionGoesOn(s, t, e, s.threads[t].del.value.key);
  }

  lemma OwnEndsKeepRevoking(s: State, t: Tid, e: EndEvent)
    requires Inv(s) && RevInv(s) && CanEnds(s, t, e)
    requires t in NextEnds(s, t, e).threads && NextEnds(s, t, e).threads[t].del.Some?
    ensures Revoking(NextEnds(s, t, e), t)
  {
    hide Inv, RevInv, Revoking;
    if e.BeginDelete? {
      BegunDeletionRevokes(s, t, e.key);
    } else if e.TakeSnapshot? {
      SnapshotCovers(s, t, e.todo, s.threads[t].del.value.key);
    } else if !e.Finish? {
      OwnPassKeepsRevoking(s, t, e);
    }
  }

  lemma OwnTurnKeepsRevoking(s: State, e: Event)
    requires Inv(s) && RevInv(s) && Can(s, e) && !e.World?
    requires e.t in Next(s, e).threads && Next(s, e).threads[e.t].del.Some?
    ensures Revoking(Next(s, e), e.t)
  {
    hide Inv, Revoked, Quiet, NextConnects, NextOpens, NextUses, NextEnds, CanConnects, CanOpens, CanUses, CanEnds;
    match e
    case Connects(t, connects) => ConnectsBeginNoDeletion(s, t, connects);
    case Opens(t, opens) => OpensBeginNoDeletion(s, t, opens);
    case Uses(t, uses) => UsesBeginNoDeletion(s, t, uses);
    case Ends(t, ends) => OwnEndsKeepRevoking(s, t, ends);
  }

  lemma RevokingStays(s: State, e: Event, t: Tid)
    requires Inv(s) && RevInv(s) && Can(s, e) && t in Next(s, e).threads && Next(s, e).threads[t].del.Some?
    ensures Revoking(Next(s, e), t)
  {
    hide Inv, RevInv, Revoking, Can, Next;
    if !e.World? && e.t == t {
      OwnTurnKeepsRevoking(s, e);
    } else {
      OtherThreadStays(s, e, t);
      OthersDeletionGoesOn(s, e, t, s.threads[t].del.value.key);
    }
  }

  /** A deletion returns with its list worked off: what is still cached is quiet. */
  lemma FinishRevokes(s: State, t: Tid)
    requires Inv(s) && RevInv(s) && CanFinish(s, t) && s.threads[t].del.Some?
    ensures var del := s.threads[t].del.value;
            del.stores <= Stores(s, del.key) && (del.stores == Stores(s, del.key) ==> Revoked(s, del.key))
  {
    hide Inv, Quiet, Of, Stores;
    assert Revoking(s, t);
  }

  lemma DeletedOnlyByFinish(s: State, e: Event)
    requires Can(s, e) && Next(s, e).deleted != s.deleted
    ensures e.Ends? && e.ends.Finish?
  {
    hide NextWorld, NextConnects, NextOpens, NextUses, NextEnds, CanConnects, CanOpens, CanUses, CanEnds, Deletes;
    match e
    case World(w) => WorldDeletesNothing(s, w);
    case Connects(t, connects) => ConnectsBeginNoDeletion(s, t, connects);
    case Opens(t, opens) => OpensDeleteNothing(s, t, opens);
    case Uses(t, uses) => UsesDeleteNothing(s, t, uses);
    case Ends(t, ends) =>
      if ends.BeginDelete? { DeleteBeginsOnly(s, t, ends.key, ends); } else { EndsBeginDeletion(s, t, ends); }
  }

  lemma WorldDeletesNothing(s: State, w: WorldEvent)
    ensures NextWorld(s, w).deleted == s.deleted
  {
    hide Stores;
  }

  lemma DeleteBeginsOnly(s: State, t: Tid, key: Key, e: EndEvent)
    requires e == BeginDelete(key) && CanEnds(s, t, e)
    ensures NextEnds(s, t, e).deleted == s.deleted
  {
  }

  /** A key whose deletion is on record was revoked by it, unless stored since. */
  lemma RecordHolds(s: State, e: Event, key: Key)
    requires Inv(s) && RevInv(s) && Can(s, e) && key in Next(s, e).deleted
    ensures Next(s, e).deleted[key] <= Stores(Next(s, e), key)
    ensures Next(s, e).deleted[key] == Stores(Next(s, e), key) ==> Revoked(Next(s, e), key)
  {
    hide Inv, Revoked, Revoking, Stores, NextConnects, NextOpens, NextUses, CanConnects, CanOpens, CanUses;
    OnlyStoresConfigure(s, e, key);
    if Next(s, e).deleted != s.deleted {
      DeletedOnlyByFinish(s, e);
      if s.threads[e.t].del.Some? {
        FinishRevokes(s, e.t);
      }
    }
    if Next(s, e).deleted[key] == Stores(Next(s, e), key) {
      RevokedStays(s, e, key);
    }
  }

  lemma NextKeepsRevocation(s: State, e: Event)
    requires Inv(s) && RevInv(s) && Can(s, e)
    ensures RevInv(Next(s, e))
  {
    hide Inv, Can, Next, Revoked, Revoking, Stores;
    forall key | key in Next(s, e).deleted
      ensures Next(s, e).deleted[key] <= Stores(Next(s, e), key)
      ensures Next(s, e).deleted[key] == Stores(Next(s, e), key) ==> Revoked(Next(s, e), key)
    {
      RecordHolds(s, e, key);
    }
    forall t | t in Next(s, e).threads && Next(s, e).threads[t].del.Some? ensures Revoking(Next(s, e), t) {
      RevokingStays(s, e, t);
    }
  }

  lemma InitialRevocation(s: State)
    requires Initial(s)
    ensures RevInv(s)
  {
  }

  lemma {:induction false} RunKeepsRevocation(s: State, events: seq<Event>)
    requires Inv(s) && RevInv(s) && Possible(s, events)
    ensures Inv(After(s, events)) && RevInv(After(s, events))
    decreases |events|
  {
    hide Inv, RevInv;
    if events != [] {
      NextKeeps(s, events[0]);
      NextKeepsRevocation(s, events[0]);
      RunKeepsRevocation(Next(s, events[0]), events[1..]);
    }
  }

  lemma {:induction false} RevokedUntilStored(s: State, events: seq<Event>, key: Key)
    requires Inv(s) && Revoked(s, key) && Possible(s, events)
    requires forall i :: 0 <= i < |events| ==> events[i] != World(Store(key))
    ensures Revoked(After(s, events), key)
    decreases |events|
  {
    hide Inv, Revoked;
    if events != [] {
      OnlyStoresConfigure(s, events[0], key);
      RevokedStays(s, events[0], key);
      NextKeeps(s, events[0]);
      RevokedUntilStored(Next(s, events[0]), events[1..], key);
    }
  }

  /** The same of any key: the key not there again since it was taken away, no cached connection of that key
      has a session, until the key is there again. */
  lemma KeyRevokes(start: State, before: seq<Event>, t: Tid, key: Key, after: seq<Event>, c: Cid)
    requires Initial(start) && Possible(start, before)
    requires var s := After(start, before);
             && CanFinish(s, t) && s.threads[t].del == Some(Deletion(key, Stores(s, key)))
             && Possible(DoFinish(s, t), after)
             && c in After(DoFinish(s, t), after).cache && Of(After(DoFinish(s, t), after), c, key)
    requires forall i :: 0 <= i < |after| ==> after[i] != World(Store(key))
    ensures var end := After(DoFinish(After(start, before), t), after);
            c in end.conns && end.conns[c].session == None && key !in end.secrets
  {
    hide Inv, RevInv, Possible, After, Stores, Of;
    InitialInv(start);
    InitialRevocation(start);
    RunKeepsRevocation(start, before);
    var s := After(start, before);
    var finish := Ends(t, Finish);
    assert Can(s, finish) && Next(s, finish) == DoFinish(s, t);
    FinishRevokes(s, t);
    OnlyStoresConfigure(s, finish, key);
    RevokedStays(s, finish, key);
    NextKeeps(s, finish);
    RevokedUntilStored(DoFinish(s, t), after, key);
  }

  /** Once the deletion of a configured connection has returned, no cached connection with its URI, of its
      list and of its user has a session, until it is configured again - one made by signing in apart, which
      opens its sessions on the sign-in. */
  lemma DeletionRevokes(start: State, before: seq<Event>, t: Tid, uri: string, kind: string, user: Option<string>,
                        after: seq<Event>)
    requires Initial(start) && Possible(start, before)
    requires var s, key := After(start, before), Stored(uri, kind, user);
             && CanFinish(s, t) && s.threads[t].del == Some(Deletion(key, Stores(s, key)))
             && Possible(DoFinish(s, t), after)
    requires forall i :: 0 <= i < |after| ==> after[i] != World(Store(Stored(uri, kind, user)))
    ensures var end := After(DoFinish(After(start, before), t), after);
            forall c :: c in end.cache && c in end.conns && end.conns[c].card.grant.None?
                        && end.conns[c].card.uri == uri && end.conns[c].card.kind == kind
                        && end.conns[c].card.client.user == user ==>
              end.conns[c].session == None && Stored(uri, kind, user) !in end.secrets
  {
    hide Possible, After, Stores;
    var end := After(DoFinish(After(start, before), t), after);
    forall c | c in end.cache && c in end.conns && end.conns[c].card.grant.None? && end.conns[c].card.uri == uri
               && end.conns[c].card.kind == kind && end.conns[c].card.client.user == user
      ensures end.conns[c].session == None && Stored(uri, kind, user) !in end.secrets
    {
      KeyRevokes(start, before, t, Stored(uri, kind, user), after, c);
    }
  }

  /** Once the end of a sign-in has returned, no cached connection made with it has a session, until it
      is there again. */
  lemma EndedSignInRevokes(start: State, before: seq<Event>, t: Tid, grant: nat, after: seq<Event>)
    requires Initial(start) && Possible(start, before)
    requires var s := After(start, before);
             && CanFinish(s, t) && s.threads[t].del == Some(Deletion(SignIn(grant), Stores(s, SignIn(grant))))
             && Possible(DoFinish(s, t), after)
    requires forall i :: 0 <= i < |after| ==> after[i] != World(Store(SignIn(grant)))
    ensures var end := After(DoFinish(After(start, before), t), after);
            forall c :: c in end.cache && c in end.conns && end.conns[c].card.grant == Some(grant) ==>
              end.conns[c].session == None && SignIn(grant) !in end.secrets
  {
    hide Possible, After, Stores;
    var end := After(DoFinish(After(start, before), t), after);
    forall c | c in end.cache && c in end.conns && end.conns[c].card.grant == Some(grant)
      ensures end.conns[c].session == None && SignIn(grant) !in end.secrets
    {
      KeyRevokes(start, before, t, SignIn(grant), after, c);
    }
  }
}
