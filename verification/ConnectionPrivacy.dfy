/**
 What one client can learn of another's connections, over the runs of the connection cache: every
 event is at most one of the operations of module ConnectionTable, and so what those say of a client's
 answers holds of every interleaving.
 */
module ConnectionPrivacy {
  import opened Wrappers
  import opened ConnectionTable
  import opened ConnectionCache
  import opened ConnectionInvariants
  import opened ConnectionSteps
  import opened ConnectionRevocation

  // --- Every event is an operation on the table, or leaves it alone -------------------------------

  function OpOf(s: State, e: Event): Option<Op>
    requires Can(s, e)
  {
    match e
    case Connects(t, ClaimSlot(readings)) =>
      var c := s.threads[t].pc.c;
      if HasRoom(s, c, readings) then Some(Insert(c, s.conns[c].card)) else None
    case Connects(t, BackOut) =>
      var c := s.threads[t].pc.c;
      Some(Withdraw(c, s.conns[c].card.client))
    case Uses(t, PopForClose) =>
      var c := s.threads[t].pc.c;
      Some(Close(c, s.conns[c].card.client))
    case Ends(t, DropNext) =>
      var c := s.threads[t].todo[0];
      Some(if Expired(s.conns[c].card, s.now, s.cfg.lifetime) then Expire(c, s.now) else Revoke(c))
    case _ => None
  }

  ghost predicate Does(s: State, s': State, op: Option<Op>) {
    && s.cache <= s.conns.Keys && s'.cache <= s'.conns.Keys
    && TableOf(s') == if op.Some? then Effect(TableOf(s), s.cfg, op.value) else TableOf(s)
  }

  /** What changes the cache by one id and no card that is in it. */
  lemma SameCards(s: State, s': State, c: Cid)
    requires s.cache <= s.conns.Keys && s'.cache <= s'.conns.Keys
    requires forall x :: x in s'.cache && x in s.cache ==> s'.conns[x].card == s.conns[x].card
    requires s'.cache in {s.cache, s.cache - {c}}
    ensures TableOf(s') == if s'.cache == s.cache then TableOf(s) else TableOf(s) - {c}
  {
  }

  lemma CardsStay(s: State, e: Event)
    requires Inv(s) && Can(s, e)
    ensures var s' := Next(s, e);
            && s.cache <= s.conns.Keys && s'.cache <= s'.conns.Keys
            && forall c :: c in s.conns ==> c in s'.conns && s'.conns[c].card == s.conns[c].card
  {
    hide Can, Next;
    NextKeeps(s, e);
    CacheInOrder(s);
    CacheInOrder(Next(s, e));
    hide Inv;
    forall c | c in s.conns ensures c in Next(s, e).conns && Next(s, e).conns[c].card == s.conns[c].card {
      CardStays(s, e, c);
    }
  }

  lemma CacheInOrder(s: State)
    requires Inv(s)
    ensures s.cache <= s.conns.Keys
  {
  }

  lemma ConnectsChange(s: State, t: Tid, e: ConnectEvent)
    requires CanConnects(s, t, e)
    ensures match e
            case ClaimSlot(readings) =>
              NextConnects(s, t, e).cache
              == if HasRoom(s, s.threads[t].pc.c, readings) then s.cache + {s.threads[t].pc.c} else s.cache
            case BackOut => NextConnects(s, t, e).cache == s.cache - {s.threads[t].pc.c}
            case _ => NextConnects(s, t, e).cache == s.cache
  {
    hide HasRoom;
  }

  lemma UsesChange(s: State, t: Tid, e: UseEvent)
    requires CanUses(s, t, e)
    ensures NextUses(s, t, e).cache == if e.PopForClose? then s.cache - {s.threads[t].pc.c} else s.cache
  {
    hide Expired;
    match e {
      case BeginLookup(_, _, _) =>
      case CheckFound =>
      case LockForUse =>
      case EndBlock(_) =>
      case CloseLost =>
      case LeaveBlock =>
      case PopForClose =>
    }
  }

  lemma OpensChange(s: State, t: Tid, e: OpenEvent)
    requires CanOpens(s, t, e)
    ensures NextOpens(s, t, e).cache == s.cache
  {
    hide Configured, Expired;
    match e {
      case CheckConfigured =>
      case ReadPassword(_) =>
      case OpenSession(_) =>
      case SetRole(_) =>
      case CloseRefused =>
      case KeepSession =>
    }
  }

  lemma EndsChange(s: State, t: Tid, e: EndEvent)
    requires CanEnds(s, t, e)
    ensures NextEnds(s, t, e).cache == if e.DropNext? then s.cache - {s.threads[t].todo[0]} else s.cache
  {
    hide Expired, Stores, Matches, ToDrop;
    match e {
      case SetClosed =>
      case TakeSession =>
      case CloseTaken =>
      case BeginDropPass(_, _) =>
      case BeginIdlePass(_) =>
      case BeginDelete(_) =>
      case TakeSnapshot(_) =>
      case DropNext =>
      case IdleNext =>
      case CloseIdle =>
      case Finish =>
    }
  }

  lemma AdditionDoes(s: State, s': State, c: Cid)
    requires s.cache <= s.conns.Keys && s'.cache <= s'.conns.Keys && c in s.conns && s'.cache == s.cache + {c}
    requires forall x :: x in s.conns ==> x in s'.conns && s'.conns[x].card == s.conns[x].card
    ensures Does(s, s', Some(Insert(c, s.conns[c].card)))
  {
    assert TableOf(s') == TableOf(s)[c := s.conns[c].card];
  }

  lemma ClaimDoes(s: State, t: Tid, readings: map<Cid, nat>)
    requires Inv(s) && CanClaimSlot(s, t, readings)
    ensures var e := Connects(t, ClaimSlot(readings)); Does(s, Next(s, e), OpOf(s, e))
  {
    hide HasRoom, Inv, Does, DoClaimSlot, NextConnects;
    var e := Connects(t, ClaimSlot(readings));
    CardsStay(s, e);
    ConnectsChange(s, t, e.connects);
    var c := s.threads[t].pc.c;
    if HasRoom(s, c, readings) { AdditionDoes(s, Next(s, e), c); } else { Unchanged(s, Next(s, e)); }
  }

  /** Taking an id out is the effect of the operation that takes it out. */
  lemma RemovalDoes(s: State, s': State, c: Cid, op: Op)
    requires s.cache <= s.conns.Keys && s'.cache <= s'.conns.Keys && c in s.conns
    requires forall x :: x in s'.cache && x in s.cache ==> s'.conns[x].card == s.conns[x].card
    requires s'.cache == s.cache - {c}
    requires || op == Withdraw(c, s.conns[c].card.client) || op == Close(c, s.conns[c].card.client)
             || op == Revoke(c) || (op == Expire(c, s.now) && Expired(s.conns[c].card, s.now, s.cfg.lifetime))
    ensures Does(s, s', Some(op))
  {
    hide Expired;
    SameCards(s, s', c);
    if c !in s.cache { assert TableOf(s) - {c} == TableOf(s); }
  }

  /** An event does to the cache what its operation does to the table. */
  lemma EventDoes(s: State, e: Event)
    requires Inv(s) && Can(s, e)
    ensures Does(s, Next(s, e), OpOf(s, e))
  {
    hide Inv, HasRoom, Does, Expired;
    CardsStay(s, e);
    var s' := Next(s, e);
    match e
    case World(w) => WorldAddsNothing(s, w); Unchanged(s, s');
    case Connects(t, connects) =>
      match connects {
        case ClaimSlot(readings) => ClaimDoes(s, t, readings);
        case BackOut => BackOutDoes(s, t);
        case _ => ConnectsChange(s, t, connects); Unchanged(s, s');
      }
    case Opens(t, opens) => OpensChange(s, t, opens); Unchanged(s, s');
    case Uses(t, uses) => UsesDo(s, t, uses);
    case Ends(t, ends) => EndsDo(s, t, ends);
  }

  lemma Unchanged(s: State, s': State)
    requires s.cache <= s.conns.Keys && s'.cache <= s'.conns.Keys && s'.cache == s.cache
    requires forall c :: c in s.conns ==> c in s'.conns && s'.conns[c].card == s.conns[c].card
    ensures Does(s, s', None)
  {
  }

  lemma BackOutDoes(s: State, t: Tid)
    requires Inv(s) && CanBackOut(s, t)
    ensures var e := Connects(t, BackOut); Does(s, Next(s, e), OpOf(s, e))
  {
    hide Inv, Does, DoBackOut;
    var e := Connects(t, BackOut);
    CardsStay(s, e);
    ConnectsChange(s, t, BackOut);
    var c := s.threads[t].pc.c;
    RemovalDoes(s, Next(s, e), c, Withdraw(c, s.conns[c].card.client));
  }

  lemma UsesDo(s: State, t: Tid, e: UseEvent)
    requires Inv(s) && CanUses(s, t, e)
    ensures Does(s, Next(s, Uses(t, e)), OpOf(s, Uses(t, e)))
  {
    hide Inv, Does, NextUses;
    CardsStay(s, Uses(t, e));
    UsesChange(s, t, e);
    if e.PopForClose? {
      var c := s.threads[t].pc.c;
      RemovalDoes(s, Next(s, Uses(t, e)), c, Close(c, s.conns[c].card.client));
    } else {
      Unchanged(s, Next(s, Uses(t, e)));
    }
  }

  lemma EndsDo(s: State, t: Tid, e: EndEvent)
    requires Inv(s) && CanEnds(s, t, e)
    ensures Does(s, Next(s, Ends(t, e)), OpOf(s, Ends(t, e)))
  {
    hide Inv, Does, NextEnds, Expired;
    CardsStay(s, Ends(t, e));
    EndsChange(s, t, e);
    if e.DropNext? {
      RemovalDoes(s, Next(s, Ends(t, e)), s.threads[t].todo[0], OpOf(s, Ends(t, e)).value);
    } else {
      Unchanged(s, Next(s, Ends(t, e)));
    }
  }

  // --- Runs ------------------------------------------------------------------------------------------

  function AsSeq(op: Option<Op>): seq<Op> {
    if op.Some? then [op.value] else []
  }

  ghost function Ops(s: State, events: seq<Event>): seq<Op>
    requires Possible(s, events)
    decreases |events|
  {
    if events == [] then [] else AsSeq(OpOf(s, events[0])) + Ops(Next(s, events[0]), events[1..])
  }

  lemma {:induction false} ReplayOn(table: Table, cfg: Settings, a: seq<Op>, b: seq<Op>)
    ensures Replay(table, cfg, a + b) == Replay(Replay(table, cfg, a), cfg, b)
  {
    hide Effect;
    if b == [] {
      assert a + b == a;
    } else {
      assert (a + b)[..|a + b| - 1] == a + b[..|b| - 1];
      ReplayOn(table, cfg, a, b[..|b| - 1]);
    }
  }

  lemma {:induction false} FeasibleOn(table: Table, now: nat, cfg: Settings, a: seq<Op>, b: seq<Op>)
    requires Feasible(table, now, cfg, a) && Feasible(Replay(table, cfg, a), now, cfg, b)
    ensures Feasible(table, now, cfg, a + b)
  {
    hide Effect;
    if b == [] {
      assert a + b == a;
    } else {
      var init := b[..|b| - 1];
      assert (a + b)[..|a + b| - 1] == a + init;
      FeasibleOn(table, now, cfg, a, init);
      ReplayOn(table, cfg, a, init);
    }
  }

  lemma OpIsFeasible(s: State, e: Event, now: nat)
    requires Inv(s) && Can(s, e) && s.now <= now
    ensures s.cache <= s.conns.Keys && Feasible(TableOf(s), now, s.cfg, AsSeq(OpOf(s, e)))
  {
    hide HasRoom, Expired;
    CacheInOrder(s);
    var ops := AsSeq(OpOf(s, e));
    if ops != [] {
      assert ops[..0] == [];
      if ops[0].Insert? { ClaimsANewId(s, e.t, e.connects.readings); }
    }
  }

  lemma ClaimsANewId(s: State, t: Tid, readings: map<Cid, nat>)
    requires Inv(s) && CanClaimSlot(s, t, readings)
    ensures s.threads[t].pc.c !in s.cache
  {
    InvAround(s, t, Some(s.threads[t].pc.c), None);
    hide Inv;
  }

  /** A run does to the cache what its operations do to the table, one after the other. */
  lemma {:induction false} RunIsOps(s: State, events: seq<Event>)
    requires Inv(s) && Possible(s, events)
    ensures var end, ops := After(s, events), Ops(s, events);
            && Inv(end) && s.cache <= s.conns.Keys && end.cache <= end.conns.Keys && end.cfg == s.cfg
                 && s.now <= end.now
            && TableOf(end) == Replay(TableOf(s), s.cfg, ops)
            && Feasible(TableOf(s), end.now, s.cfg, ops)
    decreases |events|
  {
    hide Inv, Can, Next, OpOf, TableOf, Effect;
    CacheInOrder(s);
    if events != [] {
      var e := events[0];
      var s', ops := Next(s, e), AsSeq(OpOf(s, e));
      NextKeeps(s, e);
      ClockAndSettings(s, e);
      EventDoes(s, e);
      RunIsOps(s', events[1..]);
      OpIsFeasible(s, e, After(s, events).now);
      if ops != [] { assert ops[..0] == []; }
      assert TableOf(s') == Replay(TableOf(s), s.cfg, ops);
      ReplayOn(TableOf(s), s.cfg, ops, Ops(s', events[1..]));
      FeasibleOn(TableOf(s), After(s, events).now, s.cfg, ops, Ops(s', events[1..]));
    }
  }

  /** At the end of every run, whatever a client may ask from then on is answered as if nothing had
      been done but by itself and by those who take connections away on purpose: no other client, and
      no expiring of anybody's connection, makes a difference. */
  lemma OthersAreInvisibleInRuns(start: State, events: seq<Event>, client: Client)
    requires Initial(start) && Possible(start, events)
    ensures var end := After(start, events);
            && end.cache <= end.conns.Keys
            && Indistinguishable(TableOf(end), Replay(map[], start.cfg, Purge(Ops(start, events), client)),
                                 end.now, start.cfg, client)
  {
    hide Inv, Indistinguishable, Replay, Feasible;
    InitialInv(start);
    RunIsOps(start, events);
    assert TableOf(start) == map[];
    AlikeAtFirst(After(start, events).now, start.cfg, client);
    OthersAreInvisible(map[], map[], After(start, events).now, start.cfg, Ops(start, events), client);
  }

  lemma AlikeAtFirst(now: nat, cfg: Settings, client: Client)
    ensures Indistinguishable(map[], map[], now, cfg, client)
  {
  }

  // --- What a lookup is answered -----------------------------------------------------------------------

  /** None of the events is the thread's. */
  predicate NotOf(events: seq<Event>, t: Tid) {
    forall i :: 0 <= i < |events| ==> events[i].World? || events[i].t != t
  }

  lemma {:induction false} OthersRun(s: State, events: seq<Event>, t: Tid, c: Cid)
    requires Inv(s) && Possible(s, events) && NotOf(events, t) && t in s.threads && c in s.conns
    ensures var end := After(s, events);
            && t in end.threads && end.threads[t] == s.threads[t] && end.cfg == s.cfg && s.now <= end.now
            && c in end.conns && end.conns[c].card == s.conns[c].card
    decreases |events|
  {
    hide Inv, Can, Next;
    if events != [] {
      var e := events[0];
      OtherThreadStays(s, e, t);
      CardStays(s, e, c);
      ClockAndSettings(s, e);
      NextKeeps(s, e);
      assert NotOf(events[1..], t) by { assert forall i :: 0 <= i < |events[1..]| ==> events[1..][i] == events[i + 1]; }
      OthersRun(Next(s, e), events[1..], t, c);
    }
  }

  /** Whether the check lets the call go on with the connection. */
  predicate Served(pc: Pc, c: Cid) {
    pc == UseLock(c) || pc == ClosePop(c)
  }

  lemma CheckServes(s: State, t: Tid, c: Cid, client: Client, closing: bool)
    requires t in s.threads && c in s.conns && s.threads[t].pc == Found(c, client, closing)
    ensures CanCheckFound(s, t)
    ensures t in DoCheckFound(s, t).threads
    ensures Served(DoCheckFound(s, t).threads[t].pc, c)
            <==> s.conns[c].card.client == client && s.now < s.conns[c].card.openedAt + s.cfg.lifetime
    ensures s.now >= s.conns[c].card.openedAt + s.cfg.lifetime ==>
              DoCheckFound(s, t).threads[t] == s.threads[t].(pc := Pass, todo := [c])
    ensures s.now < s.conns[c].card.openedAt + s.cfg.lifetime && s.conns[c].card.client != client ==>
              DoCheckFound(s, t).threads[t] == s.threads[t].(pc := Pass)
  {
  }

  /** In every run, no thread gets past the check on a connection at or after the end of its lifetime,
      nor on one of another client; one found over is taken out next. */
  lemma NothingOverIsServed(start: State, events: seq<Event>, t: Tid)
    requires Initial(start) && Possible(start, events) && CanCheckFound(After(start, events), t)
    ensures var end := After(start, events);
            var Found(c, client, _) := end.threads[t].pc;
            var over := end.now >= end.conns[c].card.openedAt + end.cfg.lifetime;
            var checked := DoCheckFound(end, t).threads[t];
            && (Served(checked.pc, c) <==> !over && end.conns[c].card.client == client)
            && (over ==> checked.pc == Pass && checked.todo == [c])
            && (!over && !Served(checked.pc, c) ==> checked == end.threads[t].(pc := Pass))
  {
    hide Possible, After;
    var end := After(start, events);
    var Found(c, client, closing) := end.threads[t].pc;
    CheckServes(end, t, c, client, closing);
    hide DoCheckFound;
  }

  /** Whatever time passes before a check decides it: a client's own connection is let through until its
      lifetime has passed and no longer. */
  lemma TimeEndsConnections(s: State, t: Tid, passed: nat)
    requires CanCheckFound(s, t)
    ensures var Found(c, client, _) := s.threads[t].pc;
            var later := NextWorld(s, Tick(passed));
            && CanCheckFound(later, t) && t in DoCheckFound(later, t).threads
            && (Served(DoCheckFound(later, t).threads[t].pc, c) <==>
                  s.conns[c].card.client == client && s.now + passed < s.conns[c].card.openedAt + s.cfg.lifetime)
  {
    var Found(c, client, closing) := s.threads[t].pc;
    CheckServes(NextWorld(s, Tick(passed)), t, c, client, closing);
    hide DoCheckFound;
  }

  /** A lookup is answered by the cache as it was when the lookup began, and by the time its check
      reads, whatever others do in between; an id that is not cached is refused at once. */
  lemma LookupIsAnswered(s: State, t: Tid, c: Cid, client: Client, closing: bool, between: seq<Event>)
    requires Reachable(s) && CanBeginLookup(s, t, c)
    requires Possible(DoBeginLookup(s, t, c, client, closing), between) && NotOf(between, t)
    ensures s.cache <= s.conns.Keys
    ensures var end := After(DoBeginLookup(s, t, c, client, closing), between);
            if c in s.cache then
              && CanCheckFound(end, t) && t in DoCheckFound(end, t).threads
              && (Served(DoCheckFound(end, t).threads[t].pc, c)
                  <==> s.conns[c].card.client == client && end.now < s.conns[c].card.openedAt + s.cfg.lifetime)
            else
              DoBeginLookup(s, t, c, client, closing) == s
  {
    hide Inv, Reachable, Expired;
    ReachableInv(s);
    CacheInOrder(s);
    if c in s.cache {
      var e := Uses(t, BeginLookup(c, client, closing));
      var begun := DoBeginLookup(s, t, c, client, closing);
      assert Can(s, e) && Next(s, e) == begun;
      NextKeeps(s, e);
      assert begun.threads[t].pc == Found(c, client, closing) && begun.conns == s.conns && begun.cfg == s.cfg;
      hide Can, Next, DoBeginLookup;
      OthersRun(begun, between, t, c);
      CheckServes(After(begun, between), t, c, client, closing);
    }
  }

  // --- Only those who administer connections take live ones away ----------------------------------------

  /** A deletion, the end of a sign-in, or the removal of users. */
  predicate Administers(e: Event) {
    e.Ends? && (e.ends.BeginDelete? || (e.ends.BeginDropPass? && !e.ends.why.PastLifetime?))
  }

  /** What threads are about to drop is over. */
  ghost predicate DropsExpired(s: State) {
    forall t :: t in s.threads ==> ThreadDropsExpired(s, s.threads[t])
  }

  ghost predicate ThreadDropsExpired(s: State, th: Thread) {
    && !th.pc.Snapshot?
    && (!th.pc.IdlePass? && !th.pc.IdleShut? ==>
          forall c :: c in th.todo ==> c in s.conns && Expired(s.conns[c].card, s.now, s.cfg.lifetime))
  }

  lemma OwnConnects(s: State, t: Tid, e: ConnectEvent)
    requires CanConnects(s, t, e) && ThreadDropsExpired(s, s.threads[t])
    ensures var s' := NextConnects(s, t, e); t in s'.threads && TodoKept(s, s.threads[t], s'.threads[t])
  {
    hide HasRoom, Expired;
    match e {
      case BeginConnect(_, _) =>
      case ClaimSlot(_) =>
      case LockForConnect =>
      case BackOut =>
    }
  }

  /** The list is shorter, or holds one that is over, or is not for dropping. */
  ghost predicate TodoKept(s: State, before: Thread, after: Thread) {
    && !after.pc.Snapshot?
    && (!after.pc.IdlePass? && !after.pc.IdleShut? ==>
          forall c :: c in after.todo ==>
            || (c in before.todo && !before.pc.IdlePass? && !before.pc.IdleShut?)
            || (c in s.conns && Expired(s.conns[c].card, s.now, s.cfg.lifetime)))
  }

  /** The thread goes on with its list. */
  ghost predicate KeepsTodo(before: Thread, s': State, t: Tid) {
    t in s'.threads && s'.threads[t].todo == before.todo && !s'.threads[t].pc.Snapshot?
  }

  lemma OpeningKeepsTodo(s: State, t: Tid, e: OpenEvent)
    requires t in s.threads && CanOpens(s, t, e) && (e.CheckConfigured? || e.ReadPassword? || e.OpenSession?)
    ensures KeepsTodo(s.threads[t], NextOpens(s, t, e), t)
  {
    hide Configured;
    match e {
      case CheckConfigured =>
      case ReadPassword(_) =>
      case OpenSession(_) =>
    }
  }

  lemma OpenedKeepsTodo(s: State, t: Tid, e: OpenEvent)
    requires t in s.threads && CanOpens(s, t, e) && (e.SetRole? || e.CloseRefused? || e.KeepSession?)
    ensures KeepsTodo(s.threads[t], NextOpens(s, t, e), t)
  {
    hide Configured;
    match e {
      case SetRole(_) =>
      case CloseRefused =>
      case KeepSession =>
    }
  }

  lemma OwnOpens(s: State, t: Tid, e: OpenEvent)
    requires t in s.threads && CanOpens(s, t, e)
    ensures var s' := NextOpens(s, t, e); t in s'.threads && TodoKept(s, s.threads[t], s'.threads[t])
  {
    assert s.threads[t].pc.Open?;
    hide CanOpens, NextOpens;
    if e.CheckConfigured? || e.ReadPassword? || e.OpenSession? {
      OpeningKeepsTodo(s, t, e);
    } else {
      OpenedKeepsTodo(s, t, e);
    }
  }

  lemma UsesKeepTodo(s: State, t: Tid, e: UseEvent)
    requires t in s.threads && CanUses(s, t, e) && !e.CheckFound? && !e.BeginLookup?
    ensures var s' := NextUses(s, t, e);
            !s.threads[t].pc.IdlePass? && !s.threads[t].pc.IdleShut? && KeepsTodo(s.threads[t], s', t)
  {
    match e {
      case LockForUse =>
      case EndBlock(_) =>
      case CloseLost =>
      case LeaveBlock =>
      case PopForClose =>
    }
  }

  lemma OwnLookup(s: State, t: Tid, c: Cid, client: Client, closing: bool)
    requires t in s.threads && CanBeginLookup(s, t, c) && ThreadDropsExpired(s, s.threads[t])
    ensures var s' := DoBeginLookup(s, t, c, client, closing);
            t in s'.threads && TodoKept(s, s.threads[t], s'.threads[t])
  {
  }

  lemma CheckKeepsTodo(s: State, t: Tid)
    requires t in s.threads && CanCheckFound(s, t)
    ensures var s', c := DoCheckFound(s, t), s.threads[t].pc.c;
            var todo := if Expired(s.conns[c].card, s.now, s.cfg.lifetime) then [c] else s.threads[t].todo;
            KeepsTodo(s.threads[t].(todo := todo), s', t)
  {
    hide Expired;
    var Found(c, client, closing) := s.threads[t].pc;
    if Expired(s.conns[c].card, s.now, s.cfg.lifetime) {
    } else if client != s.conns[c].card.client {
    } else if closing {
    }
  }

  lemma OwnCheck(s: State, t: Tid)
    requires t in s.threads && CanCheckFound(s, t) && ThreadDropsExpired(s, s.threads[t])
    ensures var s' := DoCheckFound(s, t); t in s'.threads && TodoKept(s, s.threads[t], s'.threads[t])
  {
    hide Expired;
    CheckKeepsTodo(s, t);
    hide DoCheckFound;
  }

  lemma OwnUses(s: State, t: Tid, e: UseEvent)
    requires t in s.threads && CanUses(s, t, e) && ThreadDropsExpired(s, s.threads[t])
    ensures var s' := NextUses(s, t, e); t in s'.threads && TodoKept(s, s.threads[t], s'.threads[t])
  {
    match e {
      case BeginLookup(c, client, closing) => OwnLookup(s, t, c, client, closing);
      case CheckFound => OwnCheck(s, t);
      case _ =>
        UsesKeepTodo(s, t, e);
        hide CanUses, NextUses;
    }
  }

  lemma OwnClosing(s: State, t: Tid, e: EndEvent)
    requires CanEnds(s, t, e) && ThreadDropsExpired(s, s.threads[t])
    requires e.SetClosed? || e.TakeSession? || e.CloseTaken? || e.CloseIdle? || e.IdleNext?
    ensures var s' := NextEnds(s, t, e); t in s'.threads && TodoKept(s, s.threads[t], s'.threads[t])
  {
    hide Expired;
    match e {
      case SetClosed =>
      case TakeSession =>
      case CloseTaken =>
      case CloseIdle =>
      case IdleNext =>
    }
  }

  lemma OwnEnds(s: State, t: Tid, e: EndEvent)
    requires CanEnds(s, t, e) && ThreadDropsExpired(s, s.threads[t]) && !Administers(Ends(t, e))
    ensures var s' := NextEnds(s, t, e); t in s'.threads && TodoKept(s, s.threads[t], s'.threads[t])
  {
    hide Expired, Stores, Matches;
    match e {
      case BeginDropPass(_, _) =>
      case BeginIdlePass(_) =>
      case TakeSnapshot(_) =>
      case DropNext =>
      case Finish =>
      case _ => OwnClosing(s, t, e);
    }
  }

  lemma OwnTodoKept(s: State, e: Event)
    requires Can(s, e) && !e.World? && e.t in s.threads && ThreadDropsExpired(s, s.threads[e.t]) && !Administers(e)
    ensures e.t in Next(s, e).threads && TodoKept(s, s.threads[e.t], Next(s, e).threads[e.t])
  {
    hide TodoKept, ThreadDropsExpired, NextConnects, NextOpens, NextUses, NextEnds;
    hide CanConnects, CanOpens, CanUses, CanEnds;
    match e
    case Connects(t, connects) => OwnConnects(s, t, connects);
    case Opens(t, opens) => OwnOpens(s, t, opens);
    case Uses(t, uses) => OwnUses(s, t, uses);
    case Ends(t, ends) => OwnEnds(s, t, ends);
  }

  /** What was over is over. */
  lemma StaysOver(s: State, e: Event, c: Cid)
    requires Inv(s) && Can(s, e) && c in s.conns && Expired(s.conns[c].card, s.now, s.cfg.lifetime)
    ensures var s' := Next(s, e); c in s'.conns && Expired(s'.conns[c].card, s'.now, s'.cfg.lifetime)
  {
    hide Inv, Can, Next;
    CardStays(s, e, c);
    ClockAndSettings(s, e);
  }

  lemma DroppingStaysExpired(s: State, e: Event)
    requires Inv(s) && DropsExpired(s) && Can(s, e) && !Administers(e)
    ensures DropsExpired(Next(s, e))
  {
    hide Inv, Can, Next, Expired, Administers;
    var s' := Next(s, e);
    forall t | t in s'.threads ensures ThreadDropsExpired(s', s'.threads[t]) {
      if !e.World? && e.t == t {
        ThreadExists(s, e);
        OwnTodoKept(s, e);
      } else {
        OtherThreadStays(s, e, t);
      }
      assert TodoKept(s, s.threads[t], s'.threads[t]);
      forall c | c in s'.threads[t].todo && !s'.threads[t].pc.IdlePass? && !s'.threads[t].pc.IdleShut?
        ensures c in s'.conns && Expired(s'.conns[c].card, s'.now, s'.cfg.lifetime)
      {
        StaysOver(s, e, c);
      }
    }
  }

  ghost predicate NoRevoke(ops: seq<Op>) {
    forall i :: 0 <= i < |ops| ==> !ops[i].Revoke?
  }

  /** Without a deletion, the end of a sign-in or the removal of users, no live connection is taken
      from anybody: what others do only ends what is over. */
  lemma {:induction false} OnlyAdministrationRevokes(s: State, events: seq<Event>)
    requires Inv(s) && DropsExpired(s) && Possible(s, events)
    requires forall i :: 0 <= i < |events| ==> !Administers(events[i])
    ensures NoRevoke(Ops(s, events))
    decreases |events|
  {
    hide Inv, Can, Next, OpOf, DropsExpired, Administers;
    if events != [] {
      var e := events[0];
      DroppingStaysExpired(s, e);
      NextKeeps(s, e);
      DropsNoLive(s, e);
      assert forall i :: 0 <= i < |events[1..]| ==> events[1..][i] == events[i + 1];
      OnlyAdministrationRevokes(Next(s, e), events[1..]);
    }
  }

  lemma DropsNoLive(s: State, e: Event)
    requires DropsExpired(s) && Can(s, e)
    ensures NoRevoke(AsSeq(OpOf(s, e)))
  {
    hide HasRoom, Expired;
    if e.Ends? && e.ends.DropNext? {
      assert ThreadDropsExpired(s, s.threads[e.t]);
    }
  }
}
