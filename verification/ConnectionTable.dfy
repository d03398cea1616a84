/**
 The cache of open connections (`_sessions`) and the tools that count it and look into it.

 Only what is fixed when a connection is made is kept here: who it belongs to and when it was
 opened. Its session and its lock are the subject of module ConnectionCache.
 */
module ConnectionTable {
  import opened Clocks
  import opened Wrappers

  type Id = nat

  /** Who a connection belongs to; compared as a whole. */
  datatype Client = Client(address: Option<string>, sessionId: Option<string>, user: Option<string>)

  /** What is fixed when a connection is made. */
  datatype Card = Card(uri: string, kind: string, client: Client, grant: Option<nat>, openedAt: nat)

  /** The limits the server runs with. */
  datatype Settings = Settings(total: nat, perClient: nat, perUser: nat, lifetime: nat, idle: nat)

  type Table = map<Id, Card>

  predicate Expired(card: Card, now: nat, lifetime: nat) {
    now - card.openedAt >= lifetime
  }

  /** The connections a limit counts: all, one client's, or one user's. */
  datatype Scope = Everyone | OneClient(client: Client) | OneUser(user: string)

  predicate InScope(card: Card, scope: Scope) {
    match scope
    case Everyone => true
    case OneClient(client) => card.client == client
    case OneUser(user) => card.client.user == Some(user)
  }

  function Limit(cfg: Settings, scope: Scope): nat {
    match scope
    case Everyone => cfg.total
    case OneClient(_) => cfg.perClient
    case OneUser(_) => cfg.perUser
  }

  /** The unexpired connections of a scope. */
  function Live(table: Table, now: nat, cfg: Settings, scope: Scope): set<Id> {
    set id | id in table && !Expired(table[id], now, cfg.lifetime) && InScope(table[id], scope)
  }

  /** No scope holds more unexpired connections than its limit. */
  ghost predicate WithinLimits(table: Table, now: nat, cfg: Settings) {
    forall scope: Scope :: |Live(table, now, cfg, scope)| <= Limit(cfg, scope)
  }

  lemma SubsetSize<T>(a: set<T>, b: set<T>)
    requires a <= b
    ensures |a| <= |b|
  {
    assert b == a + (b - a);
  }

  /** Time passing and connections leaving never break a limit. */
  lemma LimitsOutliveTimeAndRemoval(before: Table, after: Table, earlier: nat, now: nat, cfg: Settings)
    requires WithinLimits(before, earlier, cfg) && earlier <= now
    requires forall id :: id in after ==> id in before && after[id] == before[id]
    ensures WithinLimits(after, now, cfg)
  {
    forall scope: Scope ensures |Live(after, now, cfg, scope)| <= Limit(cfg, scope) {
      SubsetSize(Live(after, now, cfg, scope), Live(before, earlier, cfg, scope));
    }
  }

  /** The scopes a new connection of a client is counted in, the one named first where it is full first. */
  function ScopesOf(client: Client): seq<Scope> {
    [OneClient(client)] + (if client.user.Some? then [OneUser(client.user.value)] else []) + [Everyone]
  }

  lemma ScopesOfCard(card: Card, scope: Scope)
    ensures InScope(card, scope) <==> scope in ScopesOf(card.client)
  {
    var scopes := ScopesOf(card.client);
    assert scopes[0] == OneClient(card.client) && scopes[|scopes| - 1] == Everyone;
    if card.client.user.Some? {
      assert scopes == [OneClient(card.client), OneUser(card.client.user.value), Everyone];
    } else {
      assert scopes == [OneClient(card.client), Everyone];
    }
  }

  /** A connection added where every scope it counts in had room breaks no limit. */
  lemma RoomKeepsLimits(table: Table, id: Id, card: Card, now: nat, cfg: Settings)
    requires WithinLimits(table, now, cfg) && id !in table
    requires forall scope :: scope in ScopesOf(card.client) ==> |Live(table, now, cfg, scope)| < Limit(cfg, scope)
    ensures WithinLimits(table[id := card], now, cfg)
  {
    var after := table[id := card];
    forall scope: Scope ensures |Live(after, now, cfg, scope)| <= Limit(cfg, scope) {
      ScopesOfCard(card, scope);
      var before, grown := Live(table, now, cfg, scope), Live(after, now, cfg, scope);
      if InScope(card, scope) {
        SubsetSize(grown, before + {id});
      } else {
        SubsetSize(grown, before);
      }
    }
  }

  // --- Room for one more -------------------------------------------------------------------------

  /** What a claim counts: every record is asked for its age by a reading of the clock of its own. */
  function CountedUnder(table: Table, readings: map<Id, nat>, cfg: Settings, scope: Scope): set<Id>
    requires readings.Keys == table.Keys
  {
    set id | id in table && !Expired(table[id], readings[id], cfg.lifetime) && InScope(table[id], scope)
  }

  predicate RoomFor(table: Table, readings: map<Id, nat>, cfg: Settings, client: Client)
    requires readings.Keys == table.Keys
  {
    forall scope :: scope in ScopesOf(client) ==> |CountedUnder(table, readings, cfg, scope)| < Limit(cfg, scope)
  }

  /** The readings were made between two moments. */
  predicate ReadBetween(readings: map<Id, nat>, start: nat, end: nat) {
    forall id :: id in readings ==> start <= readings[id] <= end
  }

  /** A count lies between what the scope holds when the counting ends and what it held when it began. */
  lemma CountBounds(table: Table, readings: map<Id, nat>, start: nat, end: nat, cfg: Settings, scope: Scope)
    requires readings.Keys == table.Keys && ReadBetween(readings, start, end)
    ensures |Live(table, end, cfg, scope)| <= |CountedUnder(table, readings, cfg, scope)|
            <= |Live(table, start, cfg, scope)|
  {
    SubsetSize(Live(table, end, cfg, scope), CountedUnder(table, readings, cfg, scope));
    SubsetSize(CountedUnder(table, readings, cfg, scope), Live(table, start, cfg, scope));
  }

  /** A claim that finds room breaks no limit, however the clock moved while it counted. */
  lemma ClaimKeepsLimits(table: Table, readings: map<Id, nat>, id: Id, card: Card, start: nat, now: nat, cfg: Settings)
    requires WithinLimits(table, start, cfg) && id !in table && start <= now
    requires readings.Keys == table.Keys && ReadBetween(readings, 0, now)
    requires RoomFor(table, readings, cfg, card.client)
    ensures WithinLimits(table[id := card], now, cfg)
  {
    hide Live, CountedUnder, WithinLimits;
    LimitsOutliveTimeAndRemoval(table, table, start, now, cfg);
    forall scope | scope in ScopesOf(card.client) ensures |Live(table, now, cfg, scope)| < Limit(cfg, scope) {
      CountBounds(table, readings, 0, now, cfg, scope);
    }
    RoomKeepsLimits(table, id, card, now, cfg);
  }

  datatype Claim = Granted | Full(scope: Scope)

  /** What a client is answered for an id: the connection, or that there is none. */
  function Answer(table: Table, now: nat, cfg: Settings, id: Id, client: Client): Option<Card> {
    if id in table && !Expired(table[id], now, cfg.lifetime) && table[id].client == client
    then Some(table[id])
    else None
  }

  /** What a lookup leaves of the cache: a connection found expired is dropped, whoever asks. */
  function AfterLookup(table: Table, now: nat, cfg: Settings, id: Id): Table {
    if id in table && Expired(table[id], now, cfg.lifetime) then table - {id} else table
  }

  class Cache {
    const cfg: Settings
    const clock: Clock
    var sessions: Table

    constructor (cfg: Settings, clock: Clock)
      ensures this.cfg == cfg && this.clock == clock && sessions == map[]
      ensures WithinLimits(sessions, clock.now, cfg)
    {
      this.cfg := cfg;
      this.clock := clock;
      sessions := map[];
      new;
      forall scope: Scope ensures |Live(sessions, clock.now, cfg, scope)| <= Limit(cfg, scope) {
        assert Live(sessions, clock.now, cfg, scope) == {};
      }
    }

    /** Counts the unexpired connections: the sizes of what is counted under the readings made. */
    method CountConnections(client: Client)
      returns (total: nat, forClient: nat, forUser: nat, ghost readings: map<Id, nat>)
      modifies clock
      ensures old(clock.now) <= clock.now
      ensures readings.Keys == sessions.Keys && ReadBetween(readings, old(clock.now), clock.now)
      ensures total == |CountedUnder(sessions, readings, cfg, Everyone)|
      ensures forClient == |CountedUnder(sessions, readings, cfg, OneClient(client))|
      ensures client.user.Some? ==> forUser == |CountedUnder(sessions, readings, cfg, OneUser(client.user.value))|
    {
      total, forClient, forUser, readings := 0, 0, 0, map[];
      var left := sessions.Keys;
      assert Sub(sessions, {}) == map[];
      while left != {}
        invariant left <= sessions.Keys && old(clock.now) <= clock.now
        invariant readings.Keys == sessions.Keys - left && ReadBetween(readings, old(clock.now), clock.now)
        invariant Tallied(Sub(sessions, readings.Keys), readings, cfg, client, total, forClient, forUser)
        decreases left
      {
        var existing :| existing in left;
        left := left - {existing};
        var now := clock.Monotonic();
        CountOne(sessions, readings, existing, now, cfg, client, total, forClient, forUser);
        readings := readings[existing := now];
        if Expired(sessions[existing], now, cfg.lifetime) {
          continue;
        }
        total := total + 1;
        if sessions[existing].client == client {
          forClient := forClient + 1;
        }
        if client.user.Some? && sessions[existing].client.user == client.user {
          forUser := forUser + 1;
        }
      }
      assert Sub(sessions, readings.Keys) == sessions;
    }

    /** Inserts exactly when the readings made leave room in every scope of the card, and otherwise
        names the first of its scopes that is full. */
    method ClaimSlot(id: Id, card: Card) returns (claim: Claim, ghost readings: map<Id, nat>)
      requires id !in sessions && WithinLimits(sessions, clock.now, cfg)
      modifies this`sessions, clock
      ensures old(clock.now) <= clock.now && WithinLimits(sessions, clock.now, cfg)
      ensures readings.Keys == old(sessions).Keys && ReadBetween(readings, old(clock.now), clock.now)
      ensures claim.Granted? <==> RoomFor(old(sessions), readings, cfg, card.client)
      ensures sessions == if claim.Granted? then old(sessions)[id := card] else old(sessions)
      ensures claim.Full? ==>
                exists i :: 0 <= i < |ScopesOf(card.client)| && ScopesOf(card.client)[i] == claim.scope
                  && |CountedUnder(sessions, readings, cfg, claim.scope)| >= Limit(cfg, claim.scope)
                  && forall j :: 0 <= j < i ==>
                       |CountedUnder(sessions, readings, cfg, ScopesOf(card.client)[j])|
                       < Limit(cfg, ScopesOf(card.client)[j])
    {
      hide WithinLimits, CountedUnder;
      ghost var start, before := clock.now, sessions;
      var user := card.client.user;
      var total, forClient, forUser;
      total, forClient, forUser, readings := CountConnections(card.client);
      LimitsOutliveTimeAndRemoval(sessions, sessions, start, clock.now, cfg);
      ghost var scopes := ScopesOf(card.client);
      assert scopes == if user.Some? then [OneClient(card.client), OneUser(user.value), Everyone]
                       else [OneClient(card.client), Everyone];
      if forClient < cfg.perClient && total < cfg.total && (user.None? || forUser < cfg.perUser) {
        ClaimKeepsLimits(before, readings, id, card, start, clock.now, cfg);
        sessions := sessions[id := card];
        return Granted, readings;
      }
      if forClient >= cfg.perClient {
        assert scopes[0] == OneClient(card.client);
        return Full(OneClient(card.client)), readings;
      }
      if user.Some? && forUser >= cfg.perUser {
        assert scopes[1] == OneUser(user.value);
        return Full(OneUser(user.value)), readings;
      }
      assert scopes[|scopes| - 1] == Everyone;
      return Full(Everyone), readings;
    }

    /** Answers as Answer says at some time during the call, and leaves what AfterLookup does. */
    method GetConnection(id: Id, client: Client) returns (found: Option<Card>)
      modifies this`sessions, clock
      ensures old(clock.now) <= clock.now
      ensures found.Some? <==> id in old(sessions) && old(sessions)[id].client == client
                               && clock.now < old(sessions)[id].openedAt + cfg.lifetime
      ensures found.Some? ==> found.value == old(sessions)[id]
      ensures id in sessions <==> id in old(sessions) && clock.now < old(sessions)[id].openedAt + cfg.lifetime
      ensures forall other :: other != id ==> (other in sessions <==> other in old(sessions))
      ensures forall other :: other in sessions ==> sessions[other] == old(sessions)[other]
      ensures found == Answer(old(sessions), clock.now, cfg, id, client)
      ensures sessions == AfterLookup(old(sessions), clock.now, cfg, id)
    {
      if id !in sessions {
        return None;
      }
      var connection := sessions[id];
      var now := clock.Monotonic();
      if Expired(connection, now, cfg.lifetime) {
        sessions := sessions - {id};
        return None;
      }
      if connection.client != client {
        return None;
      }
      return Some(connection);
    }
  }

  /** A part of the table. */
  ghost function Sub(table: Table, ids: set<Id>): Table
    requires ids <= table.Keys
  {
    map id | id in ids :: table[id]
  }

  ghost predicate Tallied(table: Table, readings: map<Id, nat>, cfg: Settings, client: Client,
                          total: nat, forClient: nat, forUser: nat)
    requires readings.Keys == table.Keys
  {
    && total == |CountedUnder(table, readings, cfg, Everyone)|
    && forClient == |CountedUnder(table, readings, cfg, OneClient(client))|
    && (client.user.Some? ==> forUser == |CountedUnder(table, readings, cfg, OneUser(client.user.value))|)
  }

  lemma CountOneIn(table: Table, readings: map<Id, nat>, id: Id, now: nat, cfg: Settings, scope: Scope)
    requires readings.Keys <= table.Keys && id in table && id !in readings
    ensures var more := readings[id := now];
            |CountedUnder(Sub(table, more.Keys), more, cfg, scope)|
            == |CountedUnder(Sub(table, readings.Keys), readings, cfg, scope)|
               + if !Expired(table[id], now, cfg.lifetime) && InScope(table[id], scope) then 1 else 0
  {
    hide Expired, InScope;
    var more := readings[id := now];
    var before := CountedUnder(Sub(table, readings.Keys), readings, cfg, scope);
    var grown := CountedUnder(Sub(table, more.Keys), more, cfg, scope);
    forall other | other != id ensures other in grown <==> other in before {
    }
    assert id in grown <==> !Expired(table[id], now, cfg.lifetime) && InScope(table[id], scope);
    assert id !in before;
    hide CountedUnder, Sub;
    assert grown == before + {id} || grown == before;
  }

  lemma CountOne(table: Table, readings: map<Id, nat>, id: Id, now: nat, cfg: Settings, client: Client,
                 total: nat, forClient: nat, forUser: nat)
    requires readings.Keys <= table.Keys && id in table && id !in readings
    requires Tallied(Sub(table, readings.Keys), readings, cfg, client, total, forClient, forUser)
    ensures var more := readings[id := now];
            var counts := !Expired(table[id], now, cfg.lifetime);
            Tallied(Sub(table, more.Keys), more, cfg, client, total + (if counts then 1 else 0),
                    forClient + (if counts && table[id].client == client then 1 else 0),
                    forUser + (if counts && client.user.Some? && table[id].client.user == client.user then 1 else 0))
  {
    hide CountedUnder;
    CountOneIn(table, readings, id, now, cfg, Everyone);
    CountOneIn(table, readings, id, now, cfg, OneClient(client));
    if client.user.Some? {
      CountOneIn(table, readings, id, now, cfg, OneUser(client.user.value));
    }
  }

  // --- What one client can learn of another's connections ---------------------------------

  /** What is done to the cache, as one thing done by one client, by the passing of time, or by whoever
      administers the connections. */
  datatype Op =
    | Insert(id: Id, card: Card)        // db.connect, its slot granted
    | Withdraw(id: Id, client: Client)  // db.connect, its session not opened: the slot given back
    | Close(id: Id, client: Client)     // db.close
    | Expire(id: Id, at: nat)           // by the reaper, or by whoever asked for it
    | Revoke(id: Id)                    // its connection, its sign-in or its user was removed

  function Effect(table: Table, cfg: Settings, op: Op): Table {
    match op
    case Insert(id, card) => table[id := card]
    case Withdraw(id, client) => if id in table && table[id].client == client then table - {id} else table
    case Close(id, client) => if id in table && table[id].client == client then table - {id} else table
    case Expire(id, at) => AfterLookup(table, at, cfg, id)
    case Revoke(id) => table - {id}
  }

  /** A client's own doing, or what is taken from it on purpose. */
  predicate Concerns(op: Op, client: Client) {
    match op
    case Insert(_, card) => card.client == client
    case Withdraw(_, c) => c == client
    case Close(_, c) => c == client
    case Expire(_, _) => false
    case Revoke(_) => true
  }

  function Replay(table: Table, cfg: Settings, ops: seq<Op>): Table {
    if ops == [] then table else Effect(Replay(table, cfg, ops[..|ops| - 1]), cfg, ops[|ops| - 1])
  }

  /** What is left without the other clients and the reaper. */
  function Purge(ops: seq<Op>, client: Client): seq<Op> {
    if ops == [] then []
    else Purge(ops[..|ops| - 1], client) + if Concerns(ops[|ops| - 1], client) then [ops[|ops| - 1]] else []
  }

  /** An inserted id is a new one, and what expires has expired by now. */
  ghost predicate Feasible(table: Table, now: nat, cfg: Settings, ops: seq<Op>) {
    ops == []
    || (&& Feasible(table, now, cfg, ops[..|ops| - 1])
        && match ops[|ops| - 1]
           case Insert(id, _) => id !in Replay(table, cfg, ops[..|ops| - 1])
           case Expire(_, at) => at <= now
           case _ => true)
  }

  /** Two caches a client cannot tell apart from now on. */
  ghost predicate Indistinguishable(a: Table, b: Table, now: nat, cfg: Settings, client: Client) {
    forall id: Id, at: nat :: now <= at ==> Answer(a, at, cfg, id, client) == Answer(b, at, cfg, id, client)
  }

  function Own(table: Table, client: Client): Table {
    map id | id in table && table[id].client == client :: table[id]
  }

  /** Caches that agree on a client's own connections answer the client alike. */
  lemma OwnConnectionsDecide(a: Table, b: Table, now: nat, cfg: Settings, client: Client)
    requires Own(a, client) == Own(b, client)
    ensures Indistinguishable(a, b, now, cfg, client)
  {
    forall id: Id, at: nat | now <= at
      ensures Answer(a, at, cfg, id, client) == Answer(b, at, cfg, id, client)
    {
      assert id in Own(a, client) <==> id in Own(b, client);
      if id in Own(a, client) {
        assert a[id] == Own(a, client)[id] == Own(b, client)[id] == b[id];
      }
    }
  }

  /** Nobody else's step, the reaper's included, changes what a client is answered. */
  lemma OthersStepIsUnseen(a: Table, b: Table, now: nat, cfg: Settings, op: Op, client: Client)
    requires Indistinguishable(a, b, now, cfg, client) && !Concerns(op, client)
    requires op.Insert? ==> op.id !in a
    requires op.Expire? ==> op.at <= now
    ensures Indistinguishable(Effect(a, cfg, op), b, now, cfg, client)
  {
    forall id: Id, at: nat | now <= at
      ensures Answer(Effect(a, cfg, op), at, cfg, id, client) == Answer(b, at, cfg, id, client)
    {
      assert Answer(a, at, cfg, id, client) == Answer(b, at, cfg, id, client);
    }
  }

  /** What a client does itself, or has taken from it, does to both the same. */
  lemma OwnStepKeeps(a: Table, b: Table, now: nat, cfg: Settings, op: Op, client: Client)
    requires Indistinguishable(a, b, now, cfg, client) && Concerns(op, client)
    ensures Indistinguishable(Effect(a, cfg, op), Effect(b, cfg, op), now, cfg, client)
  {
    forall id: Id, at: nat | now <= at
      ensures Answer(Effect(a, cfg, op), at, cfg, id, client) == Answer(Effect(b, cfg, op), at, cfg, id, client)
    {
      assert Answer(a, at, cfg, id, client) == Answer(b, at, cfg, id, client);
    }
  }

  /** After any operations, a client is answered as if no other client and no reaper had done
      anything. */
  lemma {:induction false} OthersAreInvisible(
    a: Table, b: Table, now: nat, cfg: Settings, ops: seq<Op>, client: Client)
    requires Indistinguishable(a, b, now, cfg, client) && Feasible(a, now, cfg, ops)
    ensures Indistinguishable(Replay(a, cfg, ops), Replay(b, cfg, Purge(ops, client)), now, cfg, client)
  {
    hide Indistinguishable, Effect;
    if ops != [] {
      var init, op := ops[..|ops| - 1], ops[|ops| - 1];
      OthersAreInvisible(a, b, now, cfg, init, client);
      if Concerns(op, client) {
        OwnStepKeeps(Replay(a, cfg, init), Replay(b, cfg, Purge(init, client)), now, cfg, op, client);
        assert Purge(ops, client) == Purge(init, client) + [op];
        assert Purge(ops, client)[..|Purge(init, client)|] == Purge(init, client);
      } else {
        assert Purge(ops, client) == Purge(init, client);
        OthersStepIsUnseen(Replay(a, cfg, init), Replay(b, cfg, Purge(init, client)), now, cfg, op, client);
      }
    }
  }
}
