/**
 The connection cache as it is driven concurrently: db.connect, use_session, db.close, the reaper's
 two passes, and the drops that follow a deletion, a removed user or an ended sign-in.

 Every thread runs one call at a time. One event is one thing a thread does that others can see:
 a hold of the cache lock, a hold of a connection's lock, or one exchange with the secret store or
 the database. A connection's lock is held across events for as long as the code holds it; taking
 it again on the thread that has it is not a step of its own, as the lock is reentrant. Waiting
 for a lock is an event that is not possible yet.

 Some fields are history the program does not keep: they say what happened, so that the
 properties can be stated, and no event is decided by one.
 */
module ConnectionCache {
  import opened Wrappers
  import opened ConnectionTable

  type Tid = nat
  type Cid = Id
  type Sid = nat

  /** What the right to a connection comes from: a configured connection - its URI, its list, and the
      user whose group it is in - or a sign-in to this server. */
  datatype Key = Stored(uri: string, kind: string, user: Option<string>) | SignIn(grant: nat)

  function KeyOf(card: Card): Key {
    if card.grant.Some? then SignIn(card.grant.value) else Stored(card.uri, card.kind, card.client.user)
  }

  /** Whether taking a key away drops a connection: a configured one is told by its URI, list and user
      alone. */
  predicate Matches(card: Card, key: Key) {
    match key
    case Stored(uri, kind, user) => card.uri == uri && card.kind == kind && card.client.user == user
    case SignIn(grant) => card.grant == Some(grant)
  }

  /** History: how far the db.connect that made a connection got. */
  datatype Phase = Fresh | Connecting | Handed | Failed

  datatype Conn = Conn(
    card: Card,
    lastUsed: nat,
    session: Option<Sid>,
    closed: bool,
    restarted: bool,
    lock: Option<Tid>,
    // History: the thread that made it, how far that got, the thread committed to closing it, and
    // the session the last open by db.connect, or the last block, left it with.
    maker: Tid,
    phase: Phase,
    closer: Option<Tid>,
    left: Option<Sid>)

  /** Opening a session, under the connection's lock. */
  datatype Stage =
    | Check              // is the URI still configured?
    | Read               // its password is read
    | Dial               // the database session is opened
    | Role(s: Sid)       // the user's default role is set on it
    | RoleRefused(s: Sid)
    | Keep(s: Sid)       // it becomes the connection's session

  datatype Pc =
    | Idle
    // db.connect
    | Claiming(c: Cid)
    | ConnectLock(c: Cid)
    | Open(c: Cid, use: bool, stage: Stage)     // use_session opens sessions too
    | GiveBack(c: Cid)
    // use_session and db.close
    | Found(c: Cid, client: Client, closing: bool)
    | UseLock(c: Cid)
    | Block(c: Cid, s: Sid, ours: bool)       // in the with block; ours: opened by this call
    | Lost(c: Cid, s: Sid, ours: bool)        // its session died and was taken out
    | Leave(c: Cid, ours: bool)
    | ClosePop(c: Cid)
    // _Connection.close
    | Drop(c: Cid)
    | Take(c: Cid)
    | Shut(s: Sid)
    // passes over connections
    | Pass
    | IdlePass
    | IdleShut(c: Cid, s: Sid)
    | Snapshot

  /** A deletion under way: of which key, and how often the key had been stored by then. */
  datatype Deletion = Deletion(key: Key, stores: nat)

  /** call numbers the calls the thread has begun. */
  datatype Thread = Thread(pc: Pc, todo: seq<Cid>, del: Option<Deletion>, call: nat)

  /** Where the handle of an open database session is. */
  datatype Place = AtConn(c: Cid) | InHand(t: Tid) | Leaked

  datatype Birth = Birth(c: Cid, t: Tid, call: nat)

  datatype State = State(
    cfg: Settings,
    now: nat,
    conns: map<Cid, Conn>,        // every record ever made; an id names one record for ever
    cache: set<Cid>,              // the ids in _sessions
    threads: map<Tid, Thread>,
    secrets: set<Key>,            // the configured connections, and the sign-ins that are alive
    // History: where every open session is, every session ever opened, how often each key was
    // stored, and the keys whose deletion has returned, with how often they had been stored when
    // it took the secret away.
    open: map<Sid, Place>,
    born: map<Sid, Birth>,
    stores: map<Key, nat>,
    deleted: map<Key, nat>)

  function Stores(s: State, key: Key): nat {
    if key in s.stores then s.stores[key] else 0
  }

  function TableOf(s: State): Table
    requires s.cache <= s.conns.Keys
  {
    map c | c in s.cache :: s.conns[c].card
  }

  predicate Configured(s: State, card: Card) {
    KeyOf(card) in s.secrets
  }

  /** Why a pass drops connections. */
  datatype Why = PastLifetime | UsersGone(active: set<string>) | GrantOver(grant: nat)

  predicate ToDrop(s: State, card: Card, why: Why) {
    match why
    case PastLifetime => Expired(card, s.now, s.cfg.lifetime)
    case UsersGone(active) => card.client.user.Some? && card.client.user.value !in active
    case GrantOver(grant) => card.grant == Some(grant)
  }

  datatype RoleOutcome = RoleDone | RoleRefusal | RoleUnreadable

  /** What others do. */
  datatype WorldEvent = Tick(passed: nat) | Store(key: Key) | Forget(key: Key)

  /** db.connect. */
  datatype ConnectEvent =
    | BeginConnect(c: Cid, card: Card)
    | ClaimSlot(readings: map<Cid, nat>)
    | LockForConnect
    | BackOut

  /** Opening a session. */
  datatype OpenEvent =
    | CheckConfigured
    | ReadPassword(ok: bool)
    | OpenSession(s: Option<Sid>)
    | SetRole(how: RoleOutcome)
    | CloseRefused
    | KeepSession

  /** use_session, and db.close up to taking the connection out of the cache. */
  datatype UseEvent =
    | BeginLookup(c: Cid, client: Client, closing: bool)
    | CheckFound
    | LockForUse
    | EndBlock(lost: bool)
    | CloseLost
    | LeaveBlock
    | PopForClose

  /** Ending connections, one by one or in passes, and closing idle sessions. */
  datatype EndEvent =
    | SetClosed
    | TakeSession
    | CloseTaken
    | BeginDropPass(todo: seq<Cid>, why: Why)
    | BeginIdlePass(todo: seq<Cid>)
    | BeginDelete(key: Key)
    | TakeSnapshot(todo: seq<Cid>)
    | DropNext
    | IdleNext
    | CloseIdle
    | Finish

  datatype Event =
    | World(world: WorldEvent)
    | Connects(t: Tid, connects: ConnectEvent)
    | Opens(t: Tid, opens: OpenEvent)
    | Uses(t: Tid, uses: UseEvent)
    | Ends(t: Tid, ends: EndEvent)

  // --- The events ---------------------------------------------------------------------------

  function Goto(s: State, t: Tid, pc: Pc): State
    requires t in s.threads
  {
    s.(threads := s.threads[t := s.threads[t].(pc := pc)])
  }

  function Put(s: State, t: Tid, pc: Pc, c: Cid, k: Conn): State
    requires t in s.threads
  {
    s.(threads := s.threads[t := s.threads[t].(pc := pc)], conns := s.conns[c := k])
  }

  /** A call begins. */
  function Begin(s: State, t: Tid, pc: Pc, todo: seq<Cid>, del: Option<Deletion>): State
    requires t in s.threads
  {
    s.(threads := s.threads[t := Thread(pc, todo, del, s.threads[t].call + 1)])
  }

  /** Opening the session failed: the lock is released and the error raised. */
  function FailOpen(s: State, t: Tid, c: Cid, use: bool): State
    requires t in s.threads && c in s.conns
  {
    Put(s, t, if use then Pass else GiveBack(c), c, s.conns[c].(lock := None))
  }

  predicate HasRoom(s: State, c: Cid, readings: map<Cid, nat>)
    requires c in s.conns && s.cache <= s.conns.Keys && readings.Keys == s.cache
  {
    RoomFor(TableOf(s), readings, s.cfg, s.conns[c].card.client)
  }

  // When each event is possible.

  predicate On(s: State, t: Tid, c: Cid) {
    t in s.threads && c in s.conns
  }

  predicate CanBeginConnect(s: State, t: Tid, c: Cid, card: Card) {
    && t in s.threads && s.threads[t].pc == Idle && c !in s.conns
    && card.openedAt == s.now && (card.grant.Some? ==> card.client.user.Some?)
  }

  predicate CanClaimSlot(s: State, t: Tid, readings: map<Cid, nat>) {
    && t in s.threads && s.threads[t].pc.Claiming? && On(s, t, s.threads[t].pc.c)
    && s.cache <= s.conns.Keys && readings.Keys == s.cache && ReadBetween(readings, 0, s.now)
  }

  predicate CanLockForConnect(s: State, t: Tid) {
    t in s.threads && s.threads[t].pc.ConnectLock? && On(s, t, s.threads[t].pc.c)
        && s.conns[s.threads[t].pc.c].lock.None?
  }

  predicate Opening(s: State, t: Tid) {
    t in s.threads && s.threads[t].pc.Open? && On(s, t, s.threads[t].pc.c)
  }

  predicate CanCheckConfigured(s: State, t: Tid) {
    Opening(s, t) && s.threads[t].pc.stage.Check?
  }

  predicate CanReadPassword(s: State, t: Tid, ok: bool) {
    Opening(s, t) && s.threads[t].pc.stage.Read? && (ok ==> KeyOf(s.conns[s.threads[t].pc.c].card) in s.secrets)
  }

  predicate CanOpenSession(s: State, t: Tid, handle: Option<Sid>) {
    Opening(s, t) && s.threads[t].pc.stage.Dial? && (handle.Some? ==> handle.value !in s.born)
  }

  predicate CanSetRole(s: State, t: Tid) {
    Opening(s, t) && s.threads[t].pc.stage.Role?
  }

  predicate CanCloseRefused(s: State, t: Tid) {
    Opening(s, t) && s.threads[t].pc.stage.RoleRefused?
  }

  predicate CanKeepSession(s: State, t: Tid) {
    Opening(s, t) && s.threads[t].pc.stage.Keep?
  }

  predicate CanBackOut(s: State, t: Tid) {
    t in s.threads && s.threads[t].pc.GiveBack? && On(s, t, s.threads[t].pc.c)
  }

  /** An id is a random UUID that only db.connect's answer tells: any other names nothing. */
  predicate CanBeginLookup(s: State, t: Tid, c: Cid) {
    t in s.threads && s.threads[t].pc == Idle && (c in s.conns ==> s.conns[c].phase.Handed?)
  }

  predicate CanCheckFound(s: State, t: Tid) {
    t in s.threads && s.threads[t].pc.Found? && On(s, t, s.threads[t].pc.c)
  }

  predicate CanLockForUse(s: State, t: Tid) {
    t in s.threads && s.threads[t].pc.UseLock? && On(s, t, s.threads[t].pc.c) && s.conns[s.threads[t].pc.c].lock.None?
  }

  predicate CanEndBlock(s: State, t: Tid) {
    t in s.threads && s.threads[t].pc.Block? && On(s, t, s.threads[t].pc.c)
  }

  predicate CanCloseLost(s: State, t: Tid) {
    t in s.threads && s.threads[t].pc.Lost? && On(s, t, s.threads[t].pc.c)
  }

  predicate CanLeaveBlock(s: State, t: Tid) {
    t in s.threads && s.threads[t].pc.Leave? && On(s, t, s.threads[t].pc.c)
  }

  predicate CanPopForClose(s: State, t: Tid) {
    t in s.threads && s.threads[t].pc.ClosePop? && On(s, t, s.threads[t].pc.c)
  }

  predicate CanSetClosed(s: State, t: Tid) {
    t in s.threads && s.threads[t].pc.Drop? && On(s, t, s.threads[t].pc.c) && s.conns[s.threads[t].pc.c].lock.None?
  }

  predicate CanTakeSession(s: State, t: Tid) {
    t in s.threads && s.threads[t].pc.Take? && On(s, t, s.threads[t].pc.c) && s.conns[s.threads[t].pc.c].lock.None?
  }

  predicate CanCloseTaken(s: State, t: Tid) {
    t in s.threads && s.threads[t].pc.Shut?
  }

  predicate CanBeginDropPass(s: State, t: Tid, todo: seq<Cid>, why: Why) {
    && t in s.threads && s.threads[t].pc == Idle
    && (forall c :: c in todo ==> c in s.cache && c in s.conns && ToDrop(s, s.conns[c].card, why))
    // The clock is read for one connection after the other, so one may pass its lifetime unlisted.
    && (why.PastLifetime? || forall c :: c in s.cache && c in s.conns && ToDrop(s, s.conns[c].card, why) ==> c in todo)
  }

  predicate CanBeginIdlePass(s: State, t: Tid, todo: seq<Cid>) {
    && t in s.threads && s.threads[t].pc == Idle
    && (forall c :: c in todo ==> c in s.cache) && (forall c :: c in s.cache ==> c in todo)
  }

  predicate CanBeginDelete(s: State, t: Tid, key: Key) {
    t in s.threads && s.threads[t].pc == Idle && (key.Stored? ==> key in s.secrets)
  }

  predicate OpenOn(s: State, c: Cid, key: Key) {
    c in s.cache && c in s.conns && Matches(s.conns[c].card, key)
  }

  predicate CanTakeSnapshot(s: State, t: Tid, todo: seq<Cid>) {
    && t in s.threads && s.threads[t].pc.Snapshot? && s.threads[t].del.Some?
    && (forall c :: c in todo ==> OpenOn(s, c, s.threads[t].del.value.key))
    && (forall c :: c in s.cache && OpenOn(s, c, s.threads[t].del.value.key) ==> c in todo)
  }

  predicate CanDropNext(s: State, t: Tid) {
    t in s.threads && s.threads[t].pc.Pass? && s.threads[t].todo != [] && s.threads[t].todo[0] in s.conns
  }

  predicate CanIdleNext(s: State, t: Tid) {
    t in s.threads && s.threads[t].pc.IdlePass? && s.threads[t].todo != [] && s.threads[t].todo[0] in s.conns
  }

  predicate CanCloseIdle(s: State, t: Tid) {
    t in s.threads && s.threads[t].pc.IdleShut? && On(s, t, s.threads[t].pc.c)
  }

  predicate CanFinish(s: State, t: Tid) {
    t in s.threads && (s.threads[t].pc.Pass? || s.threads[t].pc.IdlePass?) && s.threads[t].todo == []
  }

  predicate CanConnects(s: State, t: Tid, e: ConnectEvent) {
    match e
    case BeginConnect(c, card) => CanBeginConnect(s, t, c, card)
    case ClaimSlot(readings) => CanClaimSlot(s, t, readings)
    case LockForConnect => CanLockForConnect(s, t)
    case BackOut => CanBackOut(s, t)
  }

  predicate CanOpens(s: State, t: Tid, e: OpenEvent) {
    match e
    case CheckConfigured => CanCheckConfigured(s, t)
    case ReadPassword(ok) => CanReadPassword(s, t, ok)
    case OpenSession(handle) => CanOpenSession(s, t, handle)
    case SetRole(_) => CanSetRole(s, t)
    case CloseRefused => CanCloseRefused(s, t)
    case KeepSession => CanKeepSession(s, t)
  }

  predicate CanUses(s: State, t: Tid, e: UseEvent) {
    match e
    case BeginLookup(c, _, _) => CanBeginLookup(s, t, c)
    case CheckFound => CanCheckFound(s, t)
    case LockForUse => CanLockForUse(s, t)
    case EndBlock(_) => CanEndBlock(s, t)
    case CloseLost => CanCloseLost(s, t)
    case LeaveBlock => CanLeaveBlock(s, t)
    case PopForClose => CanPopForClose(s, t)
  }

  predicate CanEnds(s: State, t: Tid, e: EndEvent) {
    match e
    case SetClosed => CanSetClosed(s, t)
    case TakeSession => CanTakeSession(s, t)
    case CloseTaken => CanCloseTaken(s, t)
    case BeginDropPass(todo, why) => CanBeginDropPass(s, t, todo, why)
    case BeginIdlePass(todo) => CanBeginIdlePass(s, t, todo)
    case BeginDelete(key) => CanBeginDelete(s, t, key)
    case TakeSnapshot(todo) => CanTakeSnapshot(s, t, todo)
    case DropNext => CanDropNext(s, t)
    case IdleNext => CanIdleNext(s, t)
    case CloseIdle => CanCloseIdle(s, t)
    case Finish => CanFinish(s, t)
  }

  predicate Can(s: State, e: Event) {
    match e
    case World(_) => true
    case Connects(t, connects) => CanConnects(s, t, connects)
    case Opens(t, opens) => CanOpens(s, t, opens)
    case Uses(t, uses) => CanUses(s, t, uses)
    case Ends(t, ends) => CanEnds(s, t, ends)
  }

  function Next(s: State, e: Event): State
    requires Can(s, e)
  {
    match e
    case World(w) => NextWorld(s, w)
    case Connects(t, connects) => NextConnects(s, t, connects)
    case Opens(t, opens) => NextOpens(s, t, opens)
    case Uses(t, uses) => NextUses(s, t, uses)
    case Ends(t, ends) => NextEnds(s, t, ends)
  }

  function NextWorld(s: State, e: WorldEvent): State {
    match e
    case Tick(passed) => s.(now := s.now + passed)
    case Store(key) => s.(secrets := s.secrets + {key}, stores := s.stores[key := Stores(s, key) + 1])
    case Forget(key) => s.(secrets := s.secrets - {key})
  }

  function NextConnects(s: State, t: Tid, e: ConnectEvent): State
    requires CanConnects(s, t, e)
  {
    match e
    case BeginConnect(c, card) => DoBeginConnect(s, t, c, card)
    case ClaimSlot(readings) => DoClaimSlot(s, t, readings)
    case LockForConnect => DoLockForConnect(s, t)
    case BackOut => DoBackOut(s, t)
  }

  function NextOpens(s: State, t: Tid, e: OpenEvent): State
    requires CanOpens(s, t, e)
  {
    match e
    case CheckConfigured => DoCheckConfigured(s, t)
    case ReadPassword(ok) => DoReadPassword(s, t, ok)
    case OpenSession(handle) => DoOpenSession(s, t, handle)
    case SetRole(how) => DoSetRole(s, t, how)
    case CloseRefused => DoCloseRefused(s, t)
    case KeepSession => DoKeepSession(s, t)
  }

  function NextUses(s: State, t: Tid, e: UseEvent): State
    requires CanUses(s, t, e)
  {
    match e
    case BeginLookup(c, client, closing) => DoBeginLookup(s, t, c, client, closing)
    case CheckFound => DoCheckFound(s, t)
    case LockForUse => DoLockForUse(s, t)
    case EndBlock(lost) => DoEndBlock(s, t, lost)
    case CloseLost => DoCloseLost(s, t)
    case LeaveBlock => DoLeaveBlock(s, t)
    case PopForClose => DoPopForClose(s, t)
  }

  function NextEnds(s: State, t: Tid, e: EndEvent): State
    requires CanEnds(s, t, e)
  {
    match e
    case SetClosed => DoSetClosed(s, t)
    case TakeSession => DoTakeSession(s, t)
    case CloseTaken => DoCloseTaken(s, t)
    case BeginDropPass(todo, _) => Begin(s, t, Pass, todo, None)
    case BeginIdlePass(todo) => Begin(s, t, IdlePass, todo, None)
    case BeginDelete(key) => DoBeginDelete(s, t, key)
    case TakeSnapshot(todo) => DoTakeSnapshot(s, t, todo)
    case DropNext => DoDropNext(s, t)
    case IdleNext => DoIdleNext(s, t)
    case CloseIdle => DoCloseIdle(s, t)
    case Finish => DoFinish(s, t)
  }

  /** A new record, not in the cache yet. */
  function DoBeginConnect(s: State, t: Tid, c: Cid, card: Card): State
    requires t in s.threads
  {
    Begin(s, t, Claiming(c), [], None).(
    conns := s.conns[c := Conn(card, card.openedAt, None, false, false, None, t, Fresh, None, None)])
  }

  function DoClaimSlot(s: State, t: Tid, readings: map<Cid, nat>): State
    requires CanClaimSlot(s, t, readings)
  {
    var c := s.threads[t].pc.c;
    if HasRoom(s, c, readings)
    then Put(s, t, ConnectLock(c), c, s.conns[c].(phase := Connecting)).(cache := s.cache + {c})
    else Goto(s, t, Pass)
  }

  function DoLockForConnect(s: State, t: Tid): State
    requires CanLockForConnect(s, t)
  {
    var c := s.threads[t].pc.c;
    if s.conns[c].closed then Goto(s, t, GiveBack(c))
    else Put(s, t, Open(c, false, Check), c, s.conns[c].(lock := Some(t)))
  }

  function DoCheckConfigured(s: State, t: Tid): State
    requires CanCheckConfigured(s, t)
  {
    var Open(c, use, _) := s.threads[t].pc;
    if !Configured(s, s.conns[c].card) then FailOpen(s, t, c, use)
    // A sign-in's password comes with the check that the sign-in is alive.
    else Goto(s, t, Open(c, use, if s.conns[c].card.grant.Some? then Dial else Read))
  }

  function DoReadPassword(s: State, t: Tid, ok: bool): State
    requires CanReadPassword(s, t, ok)
  {
    var Open(c, use, _) := s.threads[t].pc;
    if ok then Goto(s, t, Open(c, use, Dial)) else FailOpen(s, t, c, use)
  }

  function DoOpenSession(s: State, t: Tid, handle: Option<Sid>): State
    requires CanOpenSession(s, t, handle)
  {
    var Open(c, use, _) := s.threads[t].pc;
    match handle
    case None => FailOpen(s, t, c, use)
    case Some(sid) =>
      var next := if s.conns[c].card.client.user.Some? then Role(sid) else Keep(sid);
      Goto(s, t, Open(c, use, next)).(
      open := s.open[sid := InHand(t)],
      born := s.born[sid := Birth(c, t, s.threads[t].call)])
  }

  function DoSetRole(s: State, t: Tid, how: RoleOutcome): State
    requires CanSetRole(s, t)
  {
    var Open(c, use, Role(sid)) := s.threads[t].pc;
    match how
    case RoleDone => Goto(s, t, Open(c, use, Keep(sid)))
    case RoleRefusal => Goto(s, t, Open(c, use, RoleRefused(sid)))
    // The role is read outside the guard that closes the session.
    case RoleUnreadable => FailOpen(s, t, c, use).(open := s.open[sid := Leaked])
  }

  function DoCloseRefused(s: State, t: Tid): State
    requires CanCloseRefused(s, t)
  {
    var Open(c, use, RoleRefused(sid)) := s.threads[t].pc;
    FailOpen(s, t, c, use).(open := s.open - {sid})
  }

  /** The session becomes the connection's. db.connect releases the lock and returns the id;
      use_session goes on to its block. */
  function DoKeepSession(s: State, t: Tid): State
    requires CanKeepSession(s, t)
  {
    var Open(c, use, Keep(sid)) := s.threads[t].pc;
    var k := s.conns[c].(session := Some(sid));
    var s' := if use
              then Put(s, t, Block(c, sid, true), c, k.(restarted := true))
              else Put(s, t, Pass, c, k.(lock := None, phase := Handed, left := Some(sid)));
    s'.(open := s.open[sid := AtConn(c)])
  }

  function DoBackOut(s: State, t: Tid): State
    requires CanBackOut(s, t)
  {
    var c := s.threads[t].pc.c;
    Put(s, t, Pass, c, s.conns[c].(phase := Failed)).(cache := s.cache - {c})
  }

  function DoBeginLookup(s: State, t: Tid, c: Cid, client: Client, closing: bool): State
    requires CanBeginLookup(s, t, c)
  {
    if c in s.cache then Begin(s, t, Found(c, client, closing), [], None) else s
  }

  function DoCheckFound(s: State, t: Tid): State
    requires CanCheckFound(s, t)
  {
    var Found(c, client, closing) := s.threads[t].pc;
    var card := s.conns[c].card;
    if Expired(card, s.now, s.cfg.lifetime)
    then s.(threads := s.threads[t := s.threads[t].(pc := Pass, todo := [c])])
    else if client != card.client then Goto(s, t, Pass)
    else Goto(s, t, if closing then ClosePop(c) else UseLock(c))
  }

  function DoLockForUse(s: State, t: Tid): State
    requires CanLockForUse(s, t)
  {
    var c := s.threads[t].pc.c;
    var k := s.conns[c];
    if k.closed then Goto(s, t, Pass)
    else match k.session
         case Some(sid) => Put(s, t, Block(c, sid, false), c, k.(lock := Some(t), restarted := false))
         case None => Put(s, t, Open(c, true, Check), c, k.(lock := Some(t)))
  }

  function DoEndBlock(s: State, t: Tid, lost: bool): State
    requires CanEndBlock(s, t)
  {
    var Block(c, sid, ours) := s.threads[t].pc;
    if lost
    then Put(s, t, Lost(c, sid, ours), c, s.conns[c].(session := None)).(open := s.open[sid := InHand(t)])
    else Goto(s, t, Leave(c, ours))
  }

  function DoCloseLost(s: State, t: Tid): State
    requires CanCloseLost(s, t)
  {
    var Lost(c, sid, ours) := s.threads[t].pc;
    Goto(s, t, Leave(c, ours)).(open := s.open - {sid})
  }

  function DoLeaveBlock(s: State, t: Tid): State
    requires CanLeaveBlock(s, t)
  {
    var c := s.threads[t].pc.c;
    var k := s.conns[c];
    Put(s, t, Pass, c, k.(restarted := false, lastUsed := s.now, lock := None, left := k.session))
  }

  function DoPopForClose(s: State, t: Tid): State
    requires CanPopForClose(s, t)
  {
    var c := s.threads[t].pc.c;
    var k := s.conns[c];
    Put(s, t, Drop(c), c, if k.closed then k else k.(closer := Some(t))).(cache := s.cache - {c})
  }

  function DoSetClosed(s: State, t: Tid): State
    requires CanSetClosed(s, t)
  {
    var c := s.threads[t].pc.c;
    Put(s, t, Take(c), c, s.conns[c].(closed := true, closer := Some(t)))
  }

  function DoTakeSession(s: State, t: Tid): State
    requires CanTakeSession(s, t)
  {
    var c := s.threads[t].pc.c;
    match s.conns[c].session
    case None => Goto(s, t, Pass)
    case Some(sid) =>
      Put(s, t, Shut(sid), c, s.conns[c].(session := None)).(open := s.open[sid := InHand(t)])
  }

  function DoCloseTaken(s: State, t: Tid): State
    requires CanCloseTaken(s, t)
  {
    Goto(s, t, Pass).(open := s.open - {s.threads[t].pc.s})
  }

  /** A deletion, or the end of a sign-in, takes the key away first, and only then looks for the
      connections open on it. A sign-in may have ended already; deleting what is not there is refused. */
  function DoBeginDelete(s: State, t: Tid, key: Key): State
    requires CanBeginDelete(s, t, key)
  {
    Begin(s, t, Snapshot, [], Some(Deletion(key, Stores(s, key)))).(secrets := s.secrets - {key})
  }

  function DoTakeSnapshot(s: State, t: Tid, todo: seq<Cid>): State
    requires CanTakeSnapshot(s, t, todo)
  {
    s.(threads := s.threads[t := s.threads[t].(pc := Pass, todo := todo)])
  }

  function DoDropNext(s: State, t: Tid): State
    requires CanDropNext(s, t)
  {
    var c := s.threads[t].todo[0];
    var rest := s.threads[t].todo[1..];
    if c in s.cache
    then s.(threads := s.threads[t := s.threads[t].(pc := Drop(c), todo := rest)],
            conns := s.conns[c := s.conns[c].(closer := Some(t))],
            cache := s.cache - {c})
    else s.(threads := s.threads[t := s.threads[t].(todo := rest)])
  }

  /** Never waits for a lock: a connection another thread works with is not idle. */
  function DoIdleNext(s: State, t: Tid): State
    requires CanIdleNext(s, t)
  {
    var c := s.threads[t].todo[0];
    var k := s.conns[c];
    var rest := s.threads[t].todo[1..];
    if k.lock.None? && k.session.Some? && s.now - k.lastUsed >= s.cfg.idle
    then TakeIdle(s, t, c, k.session.value, rest)
    else s.(threads := s.threads[t := s.threads[t].(todo := rest)])
  }

  function TakeIdle(s: State, t: Tid, c: Cid, sid: Sid, rest: seq<Cid>): State
    requires On(s, t, c)
  {
    s.(threads := s.threads[t := s.threads[t].(pc := IdleShut(c, sid), todo := rest)],
       conns := s.conns[c := s.conns[c].(lock := Some(t), session := None)],
       open := s.open[sid := InHand(t)])
  }

  function DoCloseIdle(s: State, t: Tid): State
    requires CanCloseIdle(s, t)
  {
    var IdleShut(c, sid) := s.threads[t].pc;
    Put(s, t, IdlePass, c, s.conns[c].(lock := None)).(open := s.open - {sid})
  }

  function Returned(deleted: map<Key, nat>, del: Deletion): map<Key, nat> {
    if del.key in deleted && deleted[del.key] > del.stores then deleted else deleted[del.key := del.stores]
  }

  /** The call is over; a deletion that ends here has returned. */
  function DoFinish(s: State, t: Tid): State
    requires CanFinish(s, t)
  {
    var th := s.threads[t];
    s.(threads := s.threads[t := th.(pc := Idle, del := None)],
       deleted := if th.del.Some? then Returned(s.deleted, th.del.value) else s.deleted)
  }

  // --- Runs -----------------------------------------------------------------------------------

  ghost predicate Initial(s: State) {
    && s.conns == map[] && s.cache == {} && s.open == map[] && s.born == map[] && s.deleted == map[]
    && forall t :: t in s.threads ==> s.threads[t] == Thread(Idle, [], None, 0)
  }

  ghost predicate Possible(s: State, events: seq<Event>)
    decreases |events|
  {
    events == [] || (Can(s, events[0]) && Possible(Next(s, events[0]), events[1..]))
  }

  ghost function After(s: State, events: seq<Event>): State
    requires Possible(s, events)
    decreases |events|
  {
    if events == [] then s else After(Next(s, events[0]), events[1..])
  }
}
