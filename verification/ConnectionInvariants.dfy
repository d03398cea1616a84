/** What every event of the connection cache keeps. */
module ConnectionInvariants {
  import opened Wrappers
  import opened ConnectionTable
  import opened ConnectionCache

  /** The connection whose lock a thread at this point holds. */
  function Holds(pc: Pc): Option<Cid> {
    match pc
    case Open(c, _, _) => Some(c)
    case Block(c, _, _) => Some(c)
    case Lost(c, _, _) => Some(c)
    case Leave(c, _) => Some(c)
    case IdleShut(c, _) => Some(c)
    case _ => None
  }

  /** The session a thread at this point has in its hands: opening it, or closing it. */
  function Hand(pc: Pc): Option<Sid> {
    match pc
    case Open(_, _, Role(s)) => Some(s)
    case Open(_, _, RoleRefused(s)) => Some(s)
    case Open(_, _, Keep(s)) => Some(s)
    case Lost(_, s, _) => Some(s)
    case Shut(s) => Some(s)
    case IdleShut(_, s) => Some(s)
    case _ => None
  }

  /** Whether the call a thread is in has opened no session yet, but may. */
  predicate BeforeOpening(pc: Pc) {
    match pc
    case Claiming(_) => true
    case ConnectLock(_) => true
    case Found(_, _, _) => true
    case UseLock(_) => true
    case Open(_, _, stage) => stage.Check? || stage.Read? || stage.Dial?
    case _ => false
  }

  ghost predicate OpenOk(s: State, t: Tid, c: Cid, use: bool)
    requires t in s.threads
  {
    && c in s.conns && s.conns[c].lock == Some(t)
    && !s.conns[c].closed && s.conns[c].session == None && !s.conns[c].restarted
    && (if use then s.conns[c].phase.Handed? else s.conns[c].phase.Connecting? && s.conns[c].maker == t)
  }

  ghost predicate InUse(s: State, t: Tid, c: Cid, ours: bool)
    requires t in s.threads
  {
    && c in s.conns && s.conns[c].lock == Some(t)
    && !s.conns[c].closed && s.conns[c].phase.Handed? && s.conns[c].restarted == ours
  }

  ghost predicate InHandOf(s: State, t: Tid, sid: Sid) {
    sid in s.open && s.open[sid] == InHand(t)
  }

  ghost predicate ThreadOk(s: State, t: Tid)
    requires t in s.threads
  {
    var th := s.threads[t];
    && (forall c :: c in th.todo ==> c in s.conns && !s.conns[c].phase.Fresh?)
    && match th.pc
       case Idle => th.todo == [] && th.del == None
       case Pass => true
       case IdlePass => th.del == None
       case Snapshot => th.del.Some?
       case Claiming(c) => c in s.conns && s.conns[c].phase.Fresh? && s.conns[c].maker == t
       case ConnectLock(c) => c in s.conns && s.conns[c].phase.Connecting? && s.conns[c].maker == t
           && s.conns[c].session == None
       case Open(c, use, stage) =>
         && OpenOk(s, t, c, use)
         && (Hand(th.pc).Some? ==>
               && InHandOf(s, t, Hand(th.pc).value)
               && Hand(th.pc).value in s.born && s.born[Hand(th.pc).value] == Birth(c, t, th.call))
       case GiveBack(c) => c in s.conns && s.conns[c].phase.Connecting? && s.conns[c].maker == t
           && s.conns[c].session == None
       case Found(c, _, _) => c in s.conns && s.conns[c].phase.Handed?
       case UseLock(c) => c in s.conns && s.conns[c].phase.Handed?
       case ClosePop(c) => c in s.conns && s.conns[c].phase.Handed?
       case Block(c, sid, ours) =>
         && InUse(s, t, c, ours) && s.conns[c].session == Some(sid)
         && sid in s.born
         && (ours <==> s.born[sid] == Birth(c, t, th.call))
         && (!ours ==> s.conns[c].left == Some(sid))
       case Lost(c, sid, ours) => InUse(s, t, c, ours) && s.conns[c].session == None && InHandOf(s, t, sid)
       case Leave(c, ours) => InUse(s, t, c, ours)
       case Drop(c) => c in s.conns && c !in s.cache && !s.conns[c].phase.Fresh?
       case Take(c) => c in s.conns && c !in s.cache && !s.conns[c].phase.Fresh? && s.conns[c].closed
       case Shut(sid) => InHandOf(s, t, sid)
       case IdleShut(c, sid) =>
         && th.del == None
         && c in s.conns && s.conns[c].phase.Handed?
         && s.conns[c].lock == Some(t) && s.conns[c].session == None && !s.conns[c].restarted
         && InHandOf(s, t, sid)
  }

  ghost predicate ConnOk(s: State, c: Cid)
    requires c in s.conns
  {
    var k := s.conns[c];
    && (k.lock.Some? ==> k.lock.value in s.threads && Holds(s.threads[k.lock.value].pc) == Some(c))
    && (k.session.Some? ==> k.session.value in s.open && s.open[k.session.value] == AtConn(c))
    && (k.lock.None? ==> !k.restarted)
    && (k.lock.None? && k.session.Some? ==> k.left == k.session)
    && (c in s.cache ==> !k.closed && (k.phase.Connecting? || k.phase.Handed?))
    && (!k.phase.Handed? ==> k.session == None && (k.lock.Some? ==> k.phase.Connecting? && k.lock == Some(k.maker)))
    && (k.phase.Fresh? ==> !k.closed)
    // Out of the cache but not closed: some thread is about to close it.
    && (c !in s.cache && !k.closed && (k.phase.Connecting? || k.phase.Handed?) ==>
          k.closer.Some? && k.closer.value in s.threads && s.threads[k.closer.value].pc == Drop(c))
    // Closed with a session: some thread is about to take it.
    && (k.closed && k.session.Some? ==>
          k.closer.Some? && k.closer.value in s.threads && s.threads[k.closer.value].pc == Take(c))
  }

  ghost predicate SessionOk(s: State, sid: Sid)
    requires sid in s.open
  {
    && sid in s.born
    && match s.open[sid]
       case AtConn(c) => c in s.conns && s.conns[c].session == Some(sid) && s.born[sid].c == c
       case InHand(t) => t in s.threads && Hand(s.threads[t].pc) == Some(sid)
       case Leaked => true
  }

  ghost predicate BirthOk(s: State, sid: Sid)
    requires sid in s.born
  {
    var b := s.born[sid];
    && b.c in s.conns && !s.conns[b.c].phase.Fresh?
    && b.t in s.threads && b.call <= s.threads[b.t].call
    && (b.call == s.threads[b.t].call ==> !BeforeOpening(s.threads[b.t].pc))
  }

  ghost predicate Inv(s: State) {
    && s.cache <= s.conns.Keys
    && (forall t :: t in s.threads ==> ThreadOk(s, t))
    && (forall c :: c in s.conns ==> ConnOk(s, c))
    && (forall sid :: sid in s.open ==> SessionOk(s, sid))
    && (forall sid :: sid in s.born ==> BirthOk(s, sid))
  }

  lemma InitialInv(s: State)
    requires Initial(s)
    ensures Inv(s)
  {
  }

  // --- A step of one thread, on at most one connection and one session -----------------------

  /** What a thread may do to a connection without disturbing the others that know it. */
  ghost predicate Considerate(t: Tid, k: Conn, k': Conn) {
    && k'.card == k.card && k'.maker == k.maker
    && (k.phase.Handed? ==> k'.phase.Handed?)
    && (k.maker != t ==> k'.phase == k.phase)
    && (!k.phase.Fresh? ==> !k'.phase.Fresh?)
    && (k.closed ==> k'.closed)
    && (k.session == None && k.phase.Connecting? && k.maker != t ==> k'.session == None)
    && (k.lock.None? || k.lock == Some(t)
        || (k'.lock == k.lock && k'.session == k.session && k'.closed == k.closed
            && k'.restarted == k.restarted && k'.left == k.left))
  }

  ghost predicate OnlyThread(s: State, s': State, t: Tid) {
    && t in s.threads && s'.threads.Keys == s.threads.Keys && s'.now == s.now && s'.cfg == s.cfg
    && forall t' :: t' in s.threads && t' != t ==> s'.threads[t'] == s.threads[t']
  }

  ghost predicate OnlyConn(s: State, s': State, t: Tid, c: Option<Cid>) {
    && s.conns.Keys <= s'.conns.Keys && s'.cache <= s'.conns.Keys
    && (forall c' :: c' in s'.conns && Some(c') != c ==> c' in s.conns && s'.conns[c'] == s.conns[c'])
    && (forall c' :: Some(c') != c ==> (c' in s'.cache <==> c' in s.cache))
    && (c.Some? && c.value in s.conns ==>
          && Considerate(t, s.conns[c.value], s'.conns[c.value])
          && (c.value in s'.cache && c.value !in s.cache ==> s.conns[c.value].phase.Fresh?))
  }

  ghost predicate OnlySession(s: State, s': State, t: Tid, c: Option<Cid>, sid: Option<Sid>) {
    && (forall x :: x in s'.open && Some(x) != sid ==> x in s.open && s'.open[x] == s.open[x])
    && (forall x :: x in s.open && Some(x) != sid ==> x in s'.open)
    && (forall x :: x in s'.born && Some(x) != sid ==> x in s.born)
    && (forall x :: x in s.born ==> x in s'.born && s'.born[x] == s.born[x])
    // What was closed stays closed, and a session is opened only on a connection that is not closed.
    && (sid.Some? && sid.value in s.born && sid.value !in s.open ==> sid.value !in s'.open)
    && (sid.Some? && sid.value in s'.born && sid.value !in s.born ==>
          s'.born[sid.value].c in s.conns && !s.conns[s'.born[sid.value].c].closed)
    && (sid.Some? && sid.value in s.open ==>
          s.open[sid.value] == InHand(t) || (c.Some? && s.open[sid.value] == AtConn(c.value)))
    && (c.Some? && c.value in s.conns && c.value in s'.conns && s.conns[c.value].session.Some? ==>
          s'.conns[c.value].session == s.conns[c.value].session || sid == s.conns[c.value].session)
  }

  // The same without quantifiers: what one step writes.

  ghost predicate TouchesConn(s: State, s': State, t: Tid, c: Cid) {
    && c in s'.conns && s'.conns == s.conns[c := s'.conns[c]]
    && s'.cache in {s.cache, s.cache + {c}, s.cache - {c}}
    && (c in s.conns ==>
          && Considerate(t, s.conns[c], s'.conns[c])
          && (c in s'.cache && c !in s.cache ==> s.conns[c].phase.Fresh?))
  }

  ghost predicate TouchesSession(s: State, s': State, t: Tid, c: Option<Cid>, sid: Sid) {
    && (if sid in s'.open then s'.open == s.open[sid := s'.open[sid]] else s'.open == s.open - {sid})
    && (s'.born == s.born || (sid !in s.born && sid in s'.born && s'.born == s.born[sid := s'.born[sid]]))
    && (sid in s.born && sid !in s.open ==> sid !in s'.open)
    && (sid in s'.born && sid !in s.born ==> s'.born[sid].c in s.conns && !s.conns[s'.born[sid].c].closed)
    && (sid in s.open ==> s.open[sid] == InHand(t) || (c.Some? && s.open[sid] == AtConn(c.value)))
  }

  ghost predicate Touches(s: State, s': State, t: Tid, c: Option<Cid>, sid: Option<Sid>) {
    && t in s.threads && t in s'.threads && s'.threads == s.threads[t := s'.threads[t]] && s'.now == s.now
         && s'.cfg == s.cfg
    && s.cache <= s.conns.Keys
    && (if c.Some? then TouchesConn(s, s', t, c.value) else s'.conns == s.conns && s'.cache == s.cache)
    && (if sid.Some? then TouchesSession(s, s', t, c, sid.value) else s'.open == s.open && s'.born == s.born)
    && (c.Some? && c.value in s.conns && c.value in s'.conns && s.conns[c.value].session.Some? ==>
          s'.conns[c.value].session == s.conns[c.value].session || sid == s.conns[c.value].session)
  }

  lemma TouchesOnly(s: State, s': State, t: Tid, c: Option<Cid>, sid: Option<Sid>)
    requires Touches(s, s', t, c, sid)
    ensures OnlyThread(s, s', t) && OnlyConn(s, s', t, c) && OnlySession(s, s', t, c, sid)
  {
  }

  /** What the thread lets go of is what the step is about. */
  ghost predicate LetsGo(s: State, s': State, t: Tid, c: Option<Cid>, sid: Option<Sid>)
    requires t in s.threads && t in s'.threads
  {
    var pc, pc' := s.threads[t].pc, s'.threads[t].pc;
    && (Holds(pc).Some? && Holds(pc') != Holds(pc) ==> c == Holds(pc))
    && (pc.Drop? ==> c == Some(pc.c))
    && (pc.Take? ==> c == Some(pc.c))
    && (Hand(pc).Some? && Hand(pc') != Hand(pc) ==> sid == Hand(pc))
    && (s'.threads[t].call > s.threads[t].call
        || (s'.threads[t].call == s.threads[t].call && (BeforeOpening(pc') ==> BeforeOpening(pc))))
  }

  ghost predicate LocalStep(s: State, s': State, t: Tid, c: Option<Cid>, sid: Option<Sid>) {
    && OnlyThread(s, s', t)
    && OnlyConn(s, s', t, c)
    && OnlySession(s, s', t, c, sid)
    && LetsGo(s, s', t, c, sid)
    && ThreadOk(s', t)
    && (c.Some? ==> c.value in s'.conns && ConnOk(s', c.value))
    && (sid.Some? && sid.value in s'.open ==> SessionOk(s', sid.value))
    && (sid.Some? && sid.value in s'.born ==> BirthOk(s', sid.value))
  }

  /** What a step has to know: that the thread, the connection and the session are in order. */
  ghost predicate Around(s: State, t: Tid, c: Option<Cid>, sid: Option<Sid>) {
    && s.cache <= s.conns.Keys && t in s.threads && ThreadOk(s, t)
    && (c.Some? && c.value in s.conns ==> ConnOk(s, c.value))
    && (sid.Some? && sid.value in s.open ==> SessionOk(s, sid.value))
    && (sid.Some? && sid.value in s.born ==> BirthOk(s, sid.value))
  }

  /** A thread in the middle of opening a session. */
  lemma OtherOpener(s: State, s': State, t: Tid, c: Option<Cid>, sid: Option<Sid>, t': Tid)
    requires LocalStep(s, s', t, c, sid) && t' in s.threads && t' != t && ThreadOk(s, t') && s.threads[t'].pc.Open?
    ensures ThreadOk(s', t')
  {
    forall x | x in s.threads[t'].todo ensures x in s'.conns && !s'.conns[x].phase.Fresh? {
      assert x in s.conns;
    }
  }

  /** A thread that uses a session. */
  lemma OtherUser(s: State, s': State, t: Tid, c: Option<Cid>, sid: Option<Sid>, t': Tid)
    requires LocalStep(s, s', t, c, sid) && t' in s.threads && t' != t && ThreadOk(s, t')
    requires var pc := s.threads[t'].pc; pc.Block? || pc.Lost? || pc.Leave?
    ensures ThreadOk(s', t')
  {
    forall x | x in s.threads[t'].todo ensures x in s'.conns && !s'.conns[x].phase.Fresh? {
      assert x in s.conns;
    }
  }

  /** A thread that ends connections. */
  lemma OtherCloser(s: State, s': State, t: Tid, c: Option<Cid>, sid: Option<Sid>, t': Tid)
    requires LocalStep(s, s', t, c, sid) && t' in s.threads && t' != t && ThreadOk(s, t')
    requires var pc := s.threads[t'].pc; pc.Drop? || pc.Take? || pc.Shut? || pc.IdleShut?
    ensures ThreadOk(s', t')
  {
    forall x | x in s.threads[t'].todo ensures x in s'.conns && !s'.conns[x].phase.Fresh? {
      assert x in s.conns;
    }
  }

  lemma OtherThread(s: State, s': State, t: Tid, c: Option<Cid>, sid: Option<Sid>, t': Tid)
    requires LocalStep(s, s', t, c, sid) && t' in s.threads && t' != t && ThreadOk(s, t')
    ensures ThreadOk(s', t')
  {
    var pc := s.threads[t'].pc;
    if pc.Open? {
      OtherOpener(s, s', t, c, sid, t');
    } else if pc.Block? || pc.Lost? || pc.Leave? {
      OtherUser(s, s', t, c, sid, t');
    } else if pc.Drop? || pc.Take? || pc.Shut? || pc.IdleShut? {
      OtherCloser(s, s', t, c, sid, t');
    } else {
      forall x | x in s.threads[t'].todo ensures x in s'.conns && !s'.conns[x].phase.Fresh? {
        assert x in s.conns;
      }
    }
  }

  lemma OtherConn(s: State, s': State, t: Tid, c: Option<Cid>, sid: Option<Sid>, c': Cid)
    requires LocalStep(s, s', t, c, sid) && c' in s.conns && Some(c') != c && ConnOk(s, c')
    ensures ConnOk(s', c')
  {
    assert s'.conns[c'] == s.conns[c'];
  }

  lemma OtherSession(s: State, s': State, t: Tid, c: Option<Cid>, sid: Option<Sid>, x: Sid)
    requires LocalStep(s, s', t, c, sid) && x in s.open && Some(x) != sid && SessionOk(s, x)
    ensures x in s'.open && SessionOk(s', x)
  {
  }

  lemma OtherBirth(s: State, s': State, t: Tid, c: Option<Cid>, sid: Option<Sid>, x: Sid)
    requires LocalStep(s, s', t, c, sid) && x in s.born && BirthOk(s, x)
    ensures BirthOk(s', x)
  {
  }

  lemma LocalStepKeepsInv(s: State, s': State, t: Tid, c: Option<Cid>, sid: Option<Sid>)
    requires Inv(s) && LocalStep(s, s', t, c, sid)
    ensures Inv(s')
  {
    forall t' | t' in s'.threads ensures ThreadOk(s', t') {
      if t' != t { OtherThread(s, s', t, c, sid, t'); }
    }
    forall c' | c' in s'.conns ensures ConnOk(s', c') {
      if Some(c') != c { OtherConn(s, s', t, c, sid, c'); }
    }
    forall x | x in s'.open ensures SessionOk(s', x) {
      if Some(x) != sid { OtherSession(s, s', t, c, sid, x); }
    }
    forall x | x in s'.born ensures BirthOk(s', x) {
      if Some(x) != sid { OtherBirth(s, s', t, c, sid, x); }
    }
  }
}
