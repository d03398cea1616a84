/** Every event of the connection cache is a step of one thread, on at most one connection and one
    session, that leaves all three in order; so the invariant holds over every run. */
module ConnectionSteps {
  import opened Wrappers
  import opened ConnectionTable
  import opened ConnectionCache
  import opened ConnectionInvariants

  lemma InvAround(s: State, t: Tid, c: Option<Cid>, sid: Option<Sid>)
    requires Inv(s) && t in s.threads
    ensures Around(s, t, c, sid)
  {
  }

  /** A step of one thread that leaves what it touches in order. */
  ghost predicate Turn(s: State, s': State, t: Tid) {
    exists c: Option<Cid>, sid: Option<Sid> :: LocalStep(s, s', t, c, sid)
  }

  lemma TurnKeepsInv(s: State, s': State, t: Tid)
    requires Inv(s) && Turn(s, s', t)
    ensures Inv(s')
  {
    var c: Option<Cid>, sid: Option<Sid> :| LocalStep(s, s', t, c, sid);
    LocalStepKeepsInv(s, s', t, c, sid);
  }

  // --- Steps that only move the thread -------------------------------------------------------

  lemma ThreadIsOk(s: State, t: Tid)
    requires Inv(s) && t in s.threads
    ensures ThreadOk(s, t)
  {
  }

  ghost predicate Moves(s: State, s': State, t: Tid) {
    && t in s.threads && t in s'.threads && s'.threads == s.threads[t := s'.threads[t]]
    && s'.conns == s.conns && s'.cache == s.cache && s'.open == s.open && s'.born == s.born
    && s'.now == s.now && s'.cfg == s.cfg
  }

  lemma MoveIsLocal(s: State, s': State, t: Tid)
    requires Moves(s, s', t) && Around(s, t, None, None) && s.threads[t].call <= s'.threads[t].call
    requires Holds(s'.threads[t].pc) == Holds(s.threads[t].pc) && Hand(s'.threads[t].pc) == Hand(s.threads[t].pc)
    requires !s.threads[t].pc.Drop? && !s.threads[t].pc.Take?
    requires BeforeOpening(s'.threads[t].pc) && s.threads[t].call == s'.threads[t].call ==>
               BeforeOpening(s.threads[t].pc)
    requires ThreadOk(s', t)
    ensures LocalStep(s, s', t, None, None)
  {
    hide OnlyThread, OnlyConn, OnlySession, ThreadOk;
    TouchesOnly(s, s', t, None, None);
  }

  lemma MoveTurns(s: State, s': State, t: Tid)
    requires Inv(s) && Moves(s, s', t) && s.threads[t].call <= s'.threads[t].call
    requires Holds(s'.threads[t].pc) == Holds(s.threads[t].pc) && Hand(s'.threads[t].pc) == Hand(s.threads[t].pc)
    requires !s.threads[t].pc.Drop? && !s.threads[t].pc.Take?
    requires BeforeOpening(s'.threads[t].pc) && s.threads[t].call == s'.threads[t].call ==>
               BeforeOpening(s.threads[t].pc)
    requires ThreadOk(s', t)
    ensures Turn(s, s', t)
  {
    hide Inv, Around, LocalStep, ThreadOk, Hand, Holds, BeforeOpening;
    InvAround(s, t, None, None);
    MoveIsLocal(s, s', t);
  }

  lemma StayTurns(s: State, t: Tid)
    requires Inv(s) && t in s.threads && s.threads[t].pc == Idle
    ensures Turn(s, s, t)
  {
    ThreadIsOk(s, t);
    assert s.threads[t := s.threads[t]] == s.threads;
    assert Moves(s, s, t);
    hide ThreadOk, Moves, Inv, Turn;
    MoveTurns(s, s, t);
  }

  // --- db.connect, and opening a session -----------------------------------------------------

  lemma BeginConnectIsLocal(s: State, t: Tid, c: Cid, card: Card)
    requires CanBeginConnect(s, t, c, card) && Around(s, t, Some(c), None)
    ensures LocalStep(s, DoBeginConnect(s, t, c, card), t, Some(c), None)
  {
    hide OnlyThread, OnlyConn, OnlySession;
    var s' := DoBeginConnect(s, t, c, card);
    TouchesOnly(s, s', t, Some(c), None);
    hide Touches, TouchesConn, TouchesSession, Considerate;
    assert LetsGo(s, s', t, Some(c), None);
    hide LetsGo;
    assert ThreadOk(s', t);
    assert c in s'.conns && ConnOk(s', c);
    hide ThreadOk, ConnOk, SessionOk, BirthOk, DoBeginConnect;
  }

  lemma SlotGrantedIsLocal(s: State, t: Tid, c: Cid)
    requires Around(s, t, Some(c), None) && s.threads[t].pc == Claiming(c)
    ensures c in s.conns
    ensures LocalStep(s, Put(s, t, ConnectLock(c), c, s.conns[c].(phase := Connecting)).(cache := s.cache + {c}), t,
                      Some(c), None)
  {
    hide OnlyThread, OnlyConn, OnlySession;
    var s' := Put(s, t, ConnectLock(c), c, s.conns[c].(phase := Connecting)).(cache := s.cache + {c});
    TouchesOnly(s, s', t, Some(c), None);
    hide Touches, TouchesConn, TouchesSession, Considerate;
    assert LetsGo(s, s', t, Some(c), None);
    hide LetsGo;
    assert ThreadOk(s', t);
    assert c in s'.conns && ConnOk(s', c);
    hide ThreadOk, ConnOk, SessionOk, BirthOk, Put;
  }

  lemma ConnectLockIsLocal(s: State, t: Tid, c: Cid)
    requires Around(s, t, Some(c), None) && s.threads[t].pc == ConnectLock(c)
    requires c in s.conns && s.conns[c].lock.None? && !s.conns[c].closed
    ensures LocalStep(s, Put(s, t, Open(c, false, Check), c, s.conns[c].(lock := Some(t))), t, Some(c), None)
  {
    hide OnlyThread, OnlyConn, OnlySession;
    var s' := Put(s, t, Open(c, false, Check), c, s.conns[c].(lock := Some(t)));
    TouchesOnly(s, s', t, Some(c), None);
    hide Touches, TouchesConn, TouchesSession, Considerate;
    assert LetsGo(s, s', t, Some(c), None);
    hide LetsGo;
    assert ThreadOk(s', t);
    assert c in s'.conns && ConnOk(s', c);
    hide ThreadOk, ConnOk, SessionOk, BirthOk, Put;
  }

  lemma FailOpenIsLocal(s: State, t: Tid, c: Cid, use: bool)
    requires Around(s, t, Some(c), None) && s.threads[t].pc.Open?
    requires s.threads[t].pc.c == c && s.threads[t].pc.use == use && Hand(s.threads[t].pc) == None && c in s.conns
    ensures LocalStep(s, FailOpen(s, t, c, use), t, Some(c), None)
  {
    hide OnlyThread, OnlyConn, OnlySession;
    var s' := FailOpen(s, t, c, use);
    TouchesOnly(s, s', t, Some(c), None);
    hide Touches, TouchesConn, TouchesSession, Considerate;
    assert LetsGo(s, s', t, Some(c), None);
    hide LetsGo;
    assert ThreadOk(s', t);
    assert c in s'.conns && ConnOk(s', c);
    hide ThreadOk, ConnOk, SessionOk, BirthOk, FailOpen;
  }

  lemma OpenSessionIsLocal(s: State, t: Tid, sid: Sid)
    requires CanOpenSession(s, t, Some(sid)) && Around(s, t, None, Some(sid))
    ensures LocalStep(s, DoOpenSession(s, t, Some(sid)), t, None, Some(sid))
  {
    hide OnlyThread, OnlyConn, OnlySession;
    var s' := DoOpenSession(s, t, Some(sid));
    TouchesOnly(s, s', t, None, Some(sid));
    hide Touches, TouchesConn, TouchesSession, Considerate;
    assert LetsGo(s, s', t, None, Some(sid));
    hide LetsGo;
    assert ThreadOk(s', t);
    assert sid in s'.open ==> SessionOk(s', sid);
    assert sid in s'.born ==> BirthOk(s', sid);
    hide ThreadOk, ConnOk, SessionOk, BirthOk, DoOpenSession;
  }

  lemma LeakIsLocal(s: State, t: Tid, c: Cid, sid: Sid)
    requires CanSetRole(s, t) && s.threads[t].pc.c == c && Hand(s.threads[t].pc) == Some(sid)
    requires Around(s, t, Some(c), Some(sid))
    ensures LocalStep(s, DoSetRole(s, t, RoleUnreadable), t, Some(c), Some(sid))
  {
    hide OnlyThread, OnlyConn, OnlySession;
    var s' := DoSetRole(s, t, RoleUnreadable);
    TouchesOnly(s, s', t, Some(c), Some(sid));
    hide Touches, TouchesConn, TouchesSession, Considerate;
    assert LetsGo(s, s', t, Some(c), Some(sid));
    hide LetsGo;
    assert ThreadOk(s', t);
    assert c in s'.conns && ConnOk(s', c);
    assert sid in s'.open ==> SessionOk(s', sid);
    assert sid in s'.born ==> BirthOk(s', sid);
    hide ThreadOk, ConnOk, SessionOk, BirthOk, DoSetRole;
  }

  lemma CloseRefusedIsLocal(s: State, t: Tid, c: Cid, sid: Sid)
    requires CanCloseRefused(s, t) && s.threads[t].pc.c == c && Hand(s.threads[t].pc) == Some(sid)
    requires Around(s, t, Some(c), Some(sid))
    ensures LocalStep(s, DoCloseRefused(s, t), t, Some(c), Some(sid))
  {
    hide OnlyThread, OnlyConn, OnlySession;
    var s' := DoCloseRefused(s, t);
    TouchesOnly(s, s', t, Some(c), Some(sid));
    hide Touches, TouchesConn, TouchesSession, Considerate;
    assert LetsGo(s, s', t, Some(c), Some(sid));
    hide LetsGo;
    assert ThreadOk(s', t);
    assert c in s'.conns && ConnOk(s', c);
    assert sid in s'.born ==> BirthOk(s', sid);
    hide ThreadOk, ConnOk, SessionOk, BirthOk, DoCloseRefused;
  }

  lemma KeepForBlockIsInOrder(s: State, t: Tid, c: Cid, sid: Sid)
    requires Around(s, t, Some(c), Some(sid)) && s.threads[t].pc == Open(c, true, Keep(sid)) && c in s.conns
    ensures var s' := DoKeepSession(s, t);
            && t in s'.threads && ThreadOk(s', t)
            && c in s'.conns && ConnOk(s', c)
            && (sid in s'.open ==> SessionOk(s', sid))
            && (sid in s'.born ==> BirthOk(s', sid))
  {
    hide OnlyThread, OnlyConn, OnlySession, LetsGo;
  }

  lemma KeepForBlockIsLocal(s: State, t: Tid, c: Cid, sid: Sid)
    requires Around(s, t, Some(c), Some(sid)) && s.threads[t].pc == Open(c, true, Keep(sid)) && c in s.conns
    ensures LocalStep(s, DoKeepSession(s, t), t, Some(c), Some(sid))
  {
    hide OnlyThread, OnlyConn, OnlySession;
    var s' := DoKeepSession(s, t);
    KeepForBlockIsInOrder(s, t, c, sid);
    TouchesOnly(s, s', t, Some(c), Some(sid));
    hide Touches, TouchesConn, TouchesSession, Considerate, ThreadOk, ConnOk, SessionOk, BirthOk;
    assert LetsGo(s, s', t, Some(c), Some(sid));
    hide LetsGo, DoKeepSession;
  }

  lemma KeepForConnectIsInOrder(s: State, t: Tid, c: Cid, sid: Sid)
    requires Around(s, t, Some(c), Some(sid)) && s.threads[t].pc == Open(c, false, Keep(sid)) && c in s.conns
    ensures var s' := DoKeepSession(s, t);
            && t in s'.threads && ThreadOk(s', t)
            && c in s'.conns && ConnOk(s', c)
            && (sid in s'.open ==> SessionOk(s', sid))
            && (sid in s'.born ==> BirthOk(s', sid))
  {
    hide OnlyThread, OnlyConn, OnlySession, LetsGo;
  }

  lemma KeepForConnectIsLocal(s: State, t: Tid, c: Cid, sid: Sid)
    requires Around(s, t, Some(c), Some(sid)) && s.threads[t].pc == Open(c, false, Keep(sid)) && c in s.conns
    ensures LocalStep(s, DoKeepSession(s, t), t, Some(c), Some(sid))
  {
    hide OnlyThread, OnlyConn, OnlySession;
    var s' := DoKeepSession(s, t);
    KeepForConnectIsInOrder(s, t, c, sid);
    TouchesOnly(s, s', t, Some(c), Some(sid));
    hide Touches, TouchesConn, TouchesSession, Considerate, ThreadOk, ConnOk, SessionOk, BirthOk;
    assert LetsGo(s, s', t, Some(c), Some(sid));
    hide LetsGo, DoKeepSession;
  }

  lemma BackOutIsLocal(s: State, t: Tid, c: Cid)
    requires CanBackOut(s, t) && s.threads[t].pc.c == c && Around(s, t, Some(c), None)
    ensures LocalStep(s, DoBackOut(s, t), t, Some(c), None)
  {
    hide OnlyThread, OnlyConn, OnlySession;
    var s' := DoBackOut(s, t);
    TouchesOnly(s, s', t, Some(c), None);
    hide Touches, TouchesConn, TouchesSession, Considerate;
    assert LetsGo(s, s', t, Some(c), None);
    hide LetsGo;
    assert ThreadOk(s', t);
    assert c in s'.conns && ConnOk(s', c);
    hide ThreadOk, ConnOk, SessionOk, BirthOk, DoBackOut;
  }

  // --- use_session ------------------------------------------------------------------------------

  lemma LockForBlockIsInOrder(s: State, t: Tid, c: Cid, sid: Sid)
    requires CanLockForUse(s, t) && s.threads[t].pc.c == c && Around(s, t, Some(c), Some(sid))
    requires !s.conns[c].closed && s.conns[c].session == Some(sid)
    ensures var s' := DoLockForUse(s, t);
            && t in s'.threads && ThreadOk(s', t)
            && c in s'.conns && ConnOk(s', c)
            && (sid in s'.open ==> SessionOk(s', sid))
            && (sid in s'.born ==> BirthOk(s', sid))
  {
    hide OnlyThread, OnlyConn, OnlySession, LetsGo;
  }

  lemma LockForBlockIsLocal(s: State, t: Tid, c: Cid, sid: Sid)
    requires CanLockForUse(s, t) && s.threads[t].pc.c == c && Around(s, t, Some(c), Some(sid))
    requires !s.conns[c].closed && s.conns[c].session == Some(sid)
    ensures LocalStep(s, DoLockForUse(s, t), t, Some(c), Some(sid))
  {
    hide OnlyThread, OnlyConn, OnlySession;
    var s' := DoLockForUse(s, t);
    LockForBlockIsInOrder(s, t, c, sid);
    TouchesOnly(s, s', t, Some(c), Some(sid));
    hide Touches, TouchesConn, TouchesSession, Considerate, ThreadOk, ConnOk, SessionOk, BirthOk;
    assert LetsGo(s, s', t, Some(c), Some(sid));
    hide LetsGo, DoLockForUse;
  }

  lemma LockForOpenIsLocal(s: State, t: Tid, c: Cid)
    requires CanLockForUse(s, t) && s.threads[t].pc.c == c && Around(s, t, Some(c), None)
    requires !s.conns[c].closed && s.conns[c].session == None
    ensures LocalStep(s, DoLockForUse(s, t), t, Some(c), None)
  {
    hide OnlyThread, OnlyConn, OnlySession;
    var s' := DoLockForUse(s, t);
    TouchesOnly(s, s', t, Some(c), None);
    hide Touches, TouchesConn, TouchesSession, Considerate;
    assert LetsGo(s, s', t, Some(c), None);
    hide LetsGo;
    assert ThreadOk(s', t);
    assert c in s'.conns && ConnOk(s', c);
    hide ThreadOk, ConnOk, SessionOk, BirthOk, DoLockForUse;
  }

  lemma LoseIsInOrder(s: State, t: Tid, c: Cid, sid: Sid)
    requires CanEndBlock(s, t) && s.threads[t].pc.c == c && s.threads[t].pc.s == sid && Around(s, t, Some(c), Some(sid))
    ensures var s' := DoEndBlock(s, t, true);
            && t in s'.threads && ThreadOk(s', t) && c in s'.conns && ConnOk(s', c)
            && (sid in s'.open ==> SessionOk(s', sid)) && (sid in s'.born ==> BirthOk(s', sid))
  {
    hide OnlyThread, OnlyConn, OnlySession, LetsGo;
  }

  lemma LoseIsLocal(s: State, t: Tid, c: Cid, sid: Sid)
    requires CanEndBlock(s, t) && s.threads[t].pc.c == c && s.threads[t].pc.s == sid && Around(s, t, Some(c), Some(sid))
    ensures LocalStep(s, DoEndBlock(s, t, true), t, Some(c), Some(sid))
  {
    hide OnlyThread, OnlyConn, OnlySession;
    var s' := DoEndBlock(s, t, true);
    LoseIsInOrder(s, t, c, sid);
    TouchesOnly(s, s', t, Some(c), Some(sid));
    hide Touches, TouchesConn, TouchesSession, Considerate, ThreadOk, ConnOk, SessionOk, BirthOk;
    assert LetsGo(s, s', t, Some(c), Some(sid));
    hide LetsGo, DoEndBlock;
  }

  lemma CloseLostIsLocal(s: State, t: Tid, sid: Sid)
    requires CanCloseLost(s, t) && s.threads[t].pc.s == sid && Around(s, t, None, Some(sid))
    ensures LocalStep(s, DoCloseLost(s, t), t, None, Some(sid))
  {
    hide OnlyThread, OnlyConn, OnlySession;
    var s' := DoCloseLost(s, t);
    TouchesOnly(s, s', t, None, Some(sid));
    hide Touches, TouchesConn, TouchesSession, Considerate;
    assert LetsGo(s, s', t, None, Some(sid));
    hide LetsGo;
    assert ThreadOk(s', t);
    assert sid in s'.born ==> BirthOk(s', sid);
    hide ThreadOk, ConnOk, SessionOk, BirthOk, DoCloseLost;
  }

  lemma LeaveBlockIsInOrder(s: State, t: Tid, c: Cid)
    requires CanLeaveBlock(s, t) && s.threads[t].pc.c == c && Around(s, t, Some(c), None)
    ensures var s' := DoLeaveBlock(s, t);
            && t in s'.threads && ThreadOk(s', t)
            && c in s'.conns && ConnOk(s', c)
  {
    hide OnlyThread, OnlyConn, OnlySession, LetsGo;
  }

  lemma LeaveBlockIsLocal(s: State, t: Tid, c: Cid)
    requires CanLeaveBlock(s, t) && s.threads[t].pc.c == c && Around(s, t, Some(c), None)
    ensures LocalStep(s, DoLeaveBlock(s, t), t, Some(c), None)
  {
    hide OnlyThread, OnlyConn, OnlySession;
    var s' := DoLeaveBlock(s, t);
    LeaveBlockIsInOrder(s, t, c);
    TouchesOnly(s, s', t, Some(c), None);
    hide Touches, TouchesConn, TouchesSession, Considerate, ThreadOk, ConnOk, SessionOk, BirthOk;
    assert LetsGo(s, s', t, Some(c), None);
    hide LetsGo, DoLeaveBlock;
  }

  lemma PopForCloseIsInOrder(s: State, t: Tid, c: Cid)
    requires CanPopForClose(s, t) && s.threads[t].pc.c == c && Around(s, t, Some(c), None)
    ensures var s' := DoPopForClose(s, t);
            && t in s'.threads && ThreadOk(s', t) && c in s'.conns && ConnOk(s', c)
  {
    hide OnlyThread, OnlyConn, OnlySession, LetsGo;
  }

  lemma PopForCloseIsLocal(s: State, t: Tid, c: Cid)
    requires CanPopForClose(s, t) && s.threads[t].pc.c == c && Around(s, t, Some(c), None)
    ensures LocalStep(s, DoPopForClose(s, t), t, Some(c), None)
  {
    hide OnlyThread, OnlyConn, OnlySession;
    var s' := DoPopForClose(s, t);
    PopForCloseIsInOrder(s, t, c);
    TouchesOnly(s, s', t, Some(c), None);
    hide Touches, TouchesConn, TouchesSession, Considerate, ThreadOk, ConnOk, SessionOk, BirthOk;
    assert LetsGo(s, s', t, Some(c), None);
    hide LetsGo, DoPopForClose;
  }

  // --- Ending connections -------------------------------------------------------------------------

  lemma SetClosedIsInOrder(s: State, t: Tid, c: Cid)
    requires CanSetClosed(s, t) && s.threads[t].pc.c == c && Around(s, t, Some(c), None)
    ensures var s' := DoSetClosed(s, t);
            && t in s'.threads && ThreadOk(s', t)
            && c in s'.conns && ConnOk(s', c)
  {
    hide OnlyThread, OnlyConn, OnlySession, LetsGo;
  }

  lemma SetClosedIsLocal(s: State, t: Tid, c: Cid)
    requires CanSetClosed(s, t) && s.threads[t].pc.c == c && Around(s, t, Some(c), None)
    ensures LocalStep(s, DoSetClosed(s, t), t, Some(c), None)
  {
    hide OnlyThread, OnlyConn, OnlySession;
    var s' := DoSetClosed(s, t);
    SetClosedIsInOrder(s, t, c);
    TouchesOnly(s, s', t, Some(c), None);
    hide Touches, TouchesConn, TouchesSession, Considerate, ThreadOk, ConnOk, SessionOk, BirthOk;
    assert LetsGo(s, s', t, Some(c), None);
    hide LetsGo, DoSetClosed;
  }

  lemma TakeNothingIsLocal(s: State, t: Tid, c: Cid)
    requires CanTakeSession(s, t) && s.threads[t].pc.c == c && Around(s, t, Some(c), None)
    requires s.conns[c].session == None
    ensures LocalStep(s, DoTakeSession(s, t), t, Some(c), None)
  {
    hide OnlyThread, OnlyConn, OnlySession;
    var s' := DoTakeSession(s, t);
    TouchesOnly(s, s', t, Some(c), None);
    hide Touches, TouchesConn, TouchesSession, Considerate;
    assert LetsGo(s, s', t, Some(c), None);
    hide LetsGo;
    assert ThreadOk(s', t);
    assert c in s'.conns && ConnOk(s', c);
    hide ThreadOk, ConnOk, SessionOk, BirthOk, DoTakeSession;
  }

  /** The session taken out of the connection, and in the thread's hands. */
  function Taken(s: State, t: Tid, c: Cid, sid: Sid): State
    requires On(s, t, c)
  {
    Put(s, t, Shut(sid), c, s.conns[c].(session := None)).(open := s.open[sid := InHand(t)])
  }

  lemma TakenIsInOrder(s: State, t: Tid, c: Cid, sid: Sid)
    requires CanTakeSession(s, t) && s.threads[t].pc.c == c && Around(s, t, Some(c), Some(sid))
    requires s.conns[c].session == Some(sid)
    ensures var s' := Taken(s, t, c, sid);
            && ThreadOk(s', t) && ConnOk(s', c) && SessionOk(s', sid)
            && (sid in s'.born ==> BirthOk(s', sid))
  {
  }

  lemma TakesAsTaken(s: State, t: Tid, c: Cid, sid: Sid)
    requires CanTakeSession(s, t) && s.threads[t].pc.c == c && s.conns[c].session == Some(sid)
    ensures DoTakeSession(s, t) == Taken(s, t, c, sid)
  {
  }

  lemma TakeIsLocal(s: State, t: Tid, c: Cid, sid: Sid)
    requires CanTakeSession(s, t) && s.threads[t].pc.c == c && Around(s, t, Some(c), Some(sid))
    requires s.conns[c].session == Some(sid)
    ensures LocalStep(s, DoTakeSession(s, t), t, Some(c), Some(sid))
  {
    TakesAsTaken(s, t, c, sid);
    hide OnlyThread, OnlyConn, OnlySession, DoTakeSession;
    var s' := Taken(s, t, c, sid);
    TakenIsInOrder(s, t, c, sid);
    TouchesOnly(s, s', t, Some(c), Some(sid));
    hide Touches, TouchesConn, TouchesSession, Considerate, ThreadOk, ConnOk, SessionOk, BirthOk;
    assert LetsGo(s, s', t, Some(c), Some(sid));
    hide LetsGo, Taken;
  }

  lemma CloseTakenIsLocal(s: State, t: Tid, sid: Sid)
    requires CanCloseTaken(s, t) && s.threads[t].pc.s == sid && Around(s, t, None, Some(sid))
    ensures LocalStep(s, DoCloseTaken(s, t), t, None, Some(sid))
  {
    hide OnlyThread, OnlyConn, OnlySession;
    var s' := DoCloseTaken(s, t);
    TouchesOnly(s, s', t, None, Some(sid));
    hide Touches, TouchesConn, TouchesSession, Considerate;
    assert LetsGo(s, s', t, None, Some(sid));
    hide LetsGo;
    assert ThreadOk(s', t);
    assert sid in s'.born ==> BirthOk(s', sid);
    hide ThreadOk, ConnOk, SessionOk, BirthOk, DoCloseTaken;
  }

  lemma DropOneIsInOrder(s: State, t: Tid, c: Cid)
    requires CanDropNext(s, t) && s.threads[t].todo[0] == c && c in s.cache && Around(s, t, Some(c), None)
    ensures var s' := DoDropNext(s, t);
            && t in s'.threads && ThreadOk(s', t) && c in s'.conns && ConnOk(s', c)
  {
    hide OnlyThread, OnlyConn, OnlySession, LetsGo;
  }

  lemma DropOneIsLocal(s: State, t: Tid, c: Cid)
    requires CanDropNext(s, t) && s.threads[t].todo[0] == c && c in s.cache && Around(s, t, Some(c), None)
    ensures LocalStep(s, DoDropNext(s, t), t, Some(c), None)
  {
    hide OnlyThread, OnlyConn, OnlySession;
    var s' := DoDropNext(s, t);
    DropOneIsInOrder(s, t, c);
    TouchesOnly(s, s', t, Some(c), None);
    hide Touches, TouchesConn, TouchesSession, Considerate, ThreadOk, ConnOk, SessionOk, BirthOk;
    assert LetsGo(s, s', t, Some(c), None);
    hide LetsGo, DoDropNext;
  }

  lemma TakenIdleIsInOrder(s: State, t: Tid, c: Cid, sid: Sid, rest: seq<Cid>)
    requires Around(s, t, Some(c), Some(sid)) && On(s, t, c) && s.threads[t].pc == IdlePass
    requires forall x :: x in rest ==> x in s.threads[t].todo
    requires s.conns[c].lock.None? && s.conns[c].session == Some(sid)
    ensures var s' := TakeIdle(s, t, c, sid, rest);
            && ThreadOk(s', t) && ConnOk(s', c) && SessionOk(s', sid)
            && (sid in s'.born ==> BirthOk(s', sid))
  {
  }

  lemma TakeIdleIsLocal(s: State, t: Tid, c: Cid, sid: Sid, rest: seq<Cid>)
    requires Around(s, t, Some(c), Some(sid)) && On(s, t, c) && s.threads[t].pc == IdlePass
    requires forall x :: x in rest ==> x in s.threads[t].todo
    requires s.conns[c].lock.None? && s.conns[c].session == Some(sid)
    ensures LocalStep(s, TakeIdle(s, t, c, sid, rest), t, Some(c), Some(sid))
  {
    hide OnlyThread, OnlyConn, OnlySession;
    var s' := TakeIdle(s, t, c, sid, rest);
    TakenIdleIsInOrder(s, t, c, sid, rest);
    hide BirthOk;
    TouchesOnly(s, s', t, Some(c), Some(sid));
    assert LetsGo(s, s', t, Some(c), Some(sid));
    hide ThreadOk, ConnOk, SessionOk, LetsGo, Touches, TouchesConn, TouchesSession, Considerate, TakeIdle;
  }

  lemma CloseIdleIsInOrder(s: State, t: Tid, c: Cid, sid: Sid)
    requires CanCloseIdle(s, t) && s.threads[t].pc == IdleShut(c, sid) && Around(s, t, Some(c), Some(sid))
    ensures var s' := DoCloseIdle(s, t);
            && t in s'.threads && ThreadOk(s', t)
            && c in s'.conns && ConnOk(s', c)
            && (sid in s'.born ==> BirthOk(s', sid))
  {
    hide OnlyThread, OnlyConn, OnlySession, LetsGo;
  }

  lemma CloseIdleIsLocal(s: State, t: Tid, c: Cid, sid: Sid)
    requires CanCloseIdle(s, t) && s.threads[t].pc == IdleShut(c, sid) && Around(s, t, Some(c), Some(sid))
    ensures LocalStep(s, DoCloseIdle(s, t), t, Some(c), Some(sid))
  {
    hide OnlyThread, OnlyConn, OnlySession;
    var s' := DoCloseIdle(s, t);
    CloseIdleIsInOrder(s, t, c, sid);
    TouchesOnly(s, s', t, Some(c), Some(sid));
    hide Touches, TouchesConn, TouchesSession, Considerate, ThreadOk, ConnOk, SessionOk, BirthOk;
    assert LetsGo(s, s', t, Some(c), Some(sid));
    hide LetsGo, DoCloseIdle;
  }
  // --- The invariant over every event and every run -----------------------------------------------

  predicate SameCache(s: State, s': State) {
    s'.conns == s.conns && s'.cache == s.cache && s'.threads == s.threads && s'.open == s.open && s'.born == s.born
  }

  lemma SameThreadOk(s: State, s': State, t: Tid)
    requires SameCache(s, s') && t in s.threads && ThreadOk(s, t)
    ensures ThreadOk(s', t)
  {
  }

  lemma SameConnOk(s: State, s': State, c: Cid)
    requires SameCache(s, s') && c in s.conns && ConnOk(s, c)
    ensures ConnOk(s', c)
  {
  }

  lemma SameCacheKeeps(s: State, s': State)
    requires Inv(s) && SameCache(s, s')
    ensures Inv(s')
  {
    forall t | t in s'.threads ensures ThreadOk(s', t) { SameThreadOk(s, s', t); }
    forall c | c in s'.conns ensures ConnOk(s', c) { SameConnOk(s, s', c); }
    forall sid | sid in s'.open ensures SessionOk(s', sid) { assert SessionOk(s, sid); }
    forall sid | sid in s'.born ensures BirthOk(s', sid) { assert BirthOk(s, sid); }
  }

  ghost predicate Known(s: State, todo: seq<Cid>) {
    forall c :: c in todo ==> c in s.conns && !s.conns[c].phase.Fresh?
  }

  lemma CachedAreKnown(s: State, todo: seq<Cid>)
    requires Inv(s) && forall c :: c in todo ==> c in s.cache
    ensures Known(s, todo)
  {
    forall c | c in todo ensures c in s.conns && !s.conns[c].phase.Fresh? { assert ConnOk(s, c); }
  }

  /** A call begins. */
  lemma BeginIsLocal(s: State, t: Tid, pc: Pc, todo: seq<Cid>, del: Option<Deletion>)
    requires Around(s, t, None, None) && s.threads[t].pc == Idle && Known(s, todo)
    requires pc == Pass || (pc == IdlePass && del == None) || (pc == Snapshot && del.Some?)
             || (pc.Found? && pc.c in s.conns && s.conns[pc.c].phase.Handed?)
    ensures LocalStep(s, Begin(s, t, pc, todo, del), t, None, None)
  {
    hide OnlyThread, OnlyConn, OnlySession;
    var s' := Begin(s, t, pc, todo, del);
    TouchesOnly(s, s', t, None, None);
    hide Touches, TouchesConn, TouchesSession, Considerate;
    assert LetsGo(s, s', t, None, None);
    hide LetsGo;
    assert ThreadOk(s', t);
    hide ThreadOk, ConnOk, SessionOk, BirthOk, Begin;
  }

  lemma BeginTurns(s: State, t: Tid, pc: Pc, todo: seq<Cid>, del: Option<Deletion>)
    requires Inv(s) && t in s.threads && s.threads[t].pc == Idle && Known(s, todo)
    requires pc == Pass || (pc == IdlePass && del == None) || (pc == Snapshot && del.Some?)
             || (pc.Found? && pc.c in s.conns && s.conns[pc.c].phase.Handed?)
    ensures Turn(s, Begin(s, t, pc, todo, del), t)
  {
    hide LocalStep, Around, ThreadOk, ConnOk, SessionOk, BirthOk, Inv;
    InvAround(s, t, None, None);
    BeginIsLocal(s, t, pc, todo, del);
  }

  lemma ClaimSlotTurns(s: State, t: Tid, readings: map<Cid, nat>)
    requires Inv(s) && CanClaimSlot(s, t, readings)
    ensures Turn(s, DoClaimSlot(s, t, readings), t)
  {
    var c := s.threads[t].pc.c;
    if HasRoom(s, c, readings) {
      hide LocalStep, Around, ThreadOk, Inv, HasRoom;
      InvAround(s, t, Some(c), None);
      SlotGrantedIsLocal(s, t, c);
    } else {
      hide Inv, Turn, HasRoom;
      RefusedTurns(s, t);
    }
  }

  lemma LockForConnectTurns(s: State, t: Tid)
    requires Inv(s) && CanLockForConnect(s, t)
    ensures Turn(s, DoLockForConnect(s, t), t)
  {
    var c := s.threads[t].pc.c;
    if s.conns[c].closed {
      assert ThreadOk(s, t);
      MoveTurns(s, s.(threads := s.threads[t := s.threads[t].(pc := GiveBack(c))]), t);
    } else {
      InvAround(s, t, Some(c), None);
      ConnectLockIsLocal(s, t, c);
    }
  }

  lemma FailOpenTurns(s: State, t: Tid, c: Cid, use: bool)
    requires Inv(s) && Opening(s, t) && s.threads[t].pc.c == c && s.threads[t].pc.use == use
    requires Hand(s.threads[t].pc) == None
    ensures Turn(s, FailOpen(s, t, c, use), t)
  {
    hide LocalStep, Around, ThreadOk, ConnOk, SessionOk, BirthOk, Inv;
    InvAround(s, t, Some(c), None);
    FailOpenIsLocal(s, t, c, use);
  }

  lemma NextStageTurns(s: State, t: Tid, c: Cid, use: bool, stage: Stage)
    requires Inv(s) && Opening(s, t) && s.threads[t].pc.c == c && s.threads[t].pc.use == use
    requires Hand(Open(c, use, stage)) == Hand(s.threads[t].pc)
    requires BeforeOpening(Open(c, use, stage)) ==> BeforeOpening(s.threads[t].pc)
    ensures Turn(s, Goto(s, t, Open(c, use, stage)), t)
  {
    hide Inv, Turn;
    ThreadIsOk(s, t);
    MoveTurns(s, s.(threads := s.threads[t := s.threads[t].(pc := Open(c, use, stage))]), t);
  }

  lemma CheckConfiguredTurns(s: State, t: Tid)
    requires Inv(s) && CanCheckConfigured(s, t)
    ensures Turn(s, DoCheckConfigured(s, t), t)
  {
    var Open(c, use, _) := s.threads[t].pc;
    if !Configured(s, s.conns[c].card) {
      FailOpenTurns(s, t, c, use);
    } else {
      NextStageTurns(s, t, c, use, if s.conns[c].card.grant.Some? then Dial else Read);
    }
  }

  lemma ReadPasswordTurns(s: State, t: Tid, ok: bool)
    requires Inv(s) && CanReadPassword(s, t, ok)
    ensures Turn(s, DoReadPassword(s, t, ok), t)
  {
    var Open(c, use, _) := s.threads[t].pc;
    if ok {
      NextStageTurns(s, t, c, use, Dial);
    } else {
      FailOpenTurns(s, t, c, use);
    }
  }

  lemma OpenSessionTurns(s: State, t: Tid, handle: Option<Sid>)
    requires Inv(s) && CanOpenSession(s, t, handle)
    ensures Turn(s, DoOpenSession(s, t, handle), t)
  {
    hide LocalStep, Around, ThreadOk, ConnOk, SessionOk, BirthOk, Inv;
    var Open(c, use, _) := s.threads[t].pc;
    if handle.None? {
      FailOpenTurns(s, t, c, use);
    } else {
      InvAround(s, t, None, handle);
      OpenSessionIsLocal(s, t, handle.value);
    }
  }

  lemma LeakTurns(s: State, t: Tid)
    requires Inv(s) && CanSetRole(s, t)
    ensures Turn(s, DoSetRole(s, t, RoleUnreadable), t)
  {
    hide LocalStep, Around, ThreadOk, ConnOk, SessionOk, BirthOk, Inv;
    var Open(c, _, Role(sid)) := s.threads[t].pc;
    InvAround(s, t, Some(c), Some(sid));
    LeakIsLocal(s, t, c, sid);
  }

  lemma SetRoleTurns(s: State, t: Tid, how: RoleOutcome)
    requires Inv(s) && CanSetRole(s, t)
    ensures Turn(s, DoSetRole(s, t, how), t)
  {
    hide Turn, Inv;
    var Open(c, use, Role(sid)) := s.threads[t].pc;
    match how
    case RoleDone => NextStageTurns(s, t, c, use, Keep(sid));
    case RoleRefusal => NextStageTurns(s, t, c, use, RoleRefused(sid));
    case RoleUnreadable => LeakTurns(s, t);
  }

  lemma KeepSessionTurns(s: State, t: Tid)
    requires Inv(s) && CanKeepSession(s, t)
    ensures Turn(s, DoKeepSession(s, t), t)
  {
    hide LocalStep, Around, ThreadOk, ConnOk, SessionOk, BirthOk, Inv;
    var Open(c, use, Keep(sid)) := s.threads[t].pc;
    InvAround(s, t, Some(c), Some(sid));
    if use {
      KeepForBlockIsLocal(s, t, c, sid);
    } else {
      KeepForConnectIsLocal(s, t, c, sid);
    }
  }

  lemma ConnectsTurns(s: State, t: Tid, e: ConnectEvent)
    requires Inv(s) && CanConnects(s, t, e)
    ensures Turn(s, NextConnects(s, t, e), t)
  {
    match e
    case BeginConnect(c, card) =>
      InvAround(s, t, Some(c), None);
      BeginConnectIsLocal(s, t, c, card);
    case ClaimSlot(readings) => ClaimSlotTurns(s, t, readings);
    case LockForConnect => LockForConnectTurns(s, t);
    case BackOut =>
      var c := s.threads[t].pc.c;
      InvAround(s, t, Some(c), None);
      BackOutIsLocal(s, t, c);
  }

  lemma OpensTurns(s: State, t: Tid, e: OpenEvent)
    requires Inv(s) && CanOpens(s, t, e)
    ensures Turn(s, NextOpens(s, t, e), t)
  {
    match e
    case CheckConfigured => CheckConfiguredTurns(s, t);
    case ReadPassword(ok) => ReadPasswordTurns(s, t, ok);
    case OpenSession(handle) => OpenSessionTurns(s, t, handle);
    case SetRole(how) => SetRoleTurns(s, t, how);
    case CloseRefused =>
      var Open(c, use, RoleRefused(sid)) := s.threads[t].pc;
      InvAround(s, t, Some(c), Some(sid));
      CloseRefusedIsLocal(s, t, c, sid);
    case KeepSession => KeepSessionTurns(s, t);
  }

  lemma LeaveFoundTurns(s: State, t: Tid, pc: Pc, todo: seq<Cid>)
    requires Inv(s) && CanCheckFound(s, t)
    requires pc == Pass || pc == ClosePop(s.threads[t].pc.c) || pc == UseLock(s.threads[t].pc.c)
    requires todo == s.threads[t].todo || todo == [s.threads[t].pc.c]
    ensures Turn(s, s.(threads := s.threads[t := s.threads[t].(pc := pc, todo := todo)]), t)
  {
    hide Inv, Turn;
    ThreadIsOk(s, t);
    MoveTurns(s, s.(threads := s.threads[t := s.threads[t].(pc := pc, todo := todo)]), t);
  }

  lemma CheckFoundTurns(s: State, t: Tid)
    requires Inv(s) && CanCheckFound(s, t)
    ensures Turn(s, DoCheckFound(s, t), t)
  {
    hide Turn, Inv;
    var Found(c, client, closing) := s.threads[t].pc;
    var todo := s.threads[t].todo;
    LeaveFoundTurns(s, t, Pass, [c]);
    LeaveFoundTurns(s, t, Pass, todo);
    LeaveFoundTurns(s, t, if closing then ClosePop(c) else UseLock(c), todo);
  }

  /** A call that is refused goes on to its end. */
  lemma RefusedTurns(s: State, t: Tid)
    requires Inv(s) && t in s.threads
    requires s.threads[t].pc.UseLock? || s.threads[t].pc.Claiming?
    ensures Turn(s, Goto(s, t, Pass), t)
  {
    hide Inv, Turn;
    ThreadIsOk(s, t);
    MoveTurns(s, Goto(s, t, Pass), t);
  }

  lemma LockForUseTurns(s: State, t: Tid)
    requires Inv(s) && CanLockForUse(s, t)
    ensures Turn(s, DoLockForUse(s, t), t)
  {
    hide Inv, Around, ThreadOk, LocalStep;
    var c := s.threads[t].pc.c;
    if s.conns[c].closed {
      hide Turn;
      RefusedTurns(s, t);
    } else if s.conns[c].session.Some? {
      var sid := s.conns[c].session.value;
      InvAround(s, t, Some(c), Some(sid));
      LockForBlockIsLocal(s, t, c, sid);
    } else {
      InvAround(s, t, Some(c), None);
      LockForOpenIsLocal(s, t, c);
    }
  }

  lemma LoseTurns(s: State, t: Tid)
    requires Inv(s) && CanEndBlock(s, t)
    ensures Turn(s, DoEndBlock(s, t, true), t)
  {
    hide LocalStep, Around, ThreadOk, ConnOk, SessionOk, BirthOk, Inv;
    var Block(c, sid, _) := s.threads[t].pc;
    InvAround(s, t, Some(c), Some(sid));
    LoseIsLocal(s, t, c, sid);
  }

  lemma EndBlockTurns(s: State, t: Tid, lost: bool)
    requires Inv(s) && CanEndBlock(s, t)
    ensures Turn(s, DoEndBlock(s, t, lost), t)
  {
    hide Turn;
    if lost {
      hide Inv;
      LoseTurns(s, t);
    } else {
      UnlostTurns(s, t);
    }
  }

  lemma LeavingIsOk(s: State, t: Tid, c: Cid, ours: bool)
    requires t in s.threads && ThreadOk(s, t) && s.threads[t].pc.Block?
    requires s.threads[t].pc.c == c && s.threads[t].pc.ours == ours
    ensures ThreadOk(Goto(s, t, Leave(c, ours)), t)
  {
  }

  lemma UnlostTurns(s: State, t: Tid)
    requires Inv(s) && CanEndBlock(s, t)
    ensures Turn(s, DoEndBlock(s, t, false), t)
  {
    hide Inv, Turn, ThreadOk;
    var Block(c, _, ours) := s.threads[t].pc;
    ThreadIsOk(s, t);
    LeavingIsOk(s, t, c, ours);
    assert DoEndBlock(s, t, false) == Goto(s, t, Leave(c, ours));
    hide DoEndBlock;
    MoveTurns(s, Goto(s, t, Leave(c, ours)), t);
  }

  lemma UsesTurns(s: State, t: Tid, e: UseEvent)
    requires Inv(s) && CanUses(s, t, e)
    ensures Turn(s, NextUses(s, t, e), t)
  {
    match e
    case BeginLookup(c, client, closing) =>
      if c in s.cache {
        BeginTurns(s, t, Found(c, client, closing), [], None);
      } else {
        StayTurns(s, t);
      }
    case CheckFound => CheckFoundTurns(s, t);
    case LockForUse => LockForUseTurns(s, t);
    case EndBlock(lost) => EndBlockTurns(s, t, lost);
    case CloseLost =>
      var sid := s.threads[t].pc.s;
      InvAround(s, t, None, Some(sid));
      CloseLostIsLocal(s, t, sid);
    case LeaveBlock =>
      var c := s.threads[t].pc.c;
      InvAround(s, t, Some(c), None);
      LeaveBlockIsLocal(s, t, c);
    case PopForClose =>
      var c := s.threads[t].pc.c;
      InvAround(s, t, Some(c), None);
      PopForCloseIsLocal(s, t, c);
  }

  lemma TakeSessionTurns(s: State, t: Tid)
    requires Inv(s) && CanTakeSession(s, t)
    ensures Turn(s, DoTakeSession(s, t), t)
  {
    hide LocalStep, Around, ThreadOk, ConnOk, SessionOk, BirthOk, Inv;
    var c := s.threads[t].pc.c;
    var sid := s.conns[c].session;
    InvAround(s, t, Some(c), sid);
    if sid.None? {
      TakeNothingIsLocal(s, t, c);
    } else {
      TakeIsLocal(s, t, c, sid.value);
    }
  }

  lemma BeginDeleteTurns(s: State, t: Tid, key: Key)
    requires Inv(s) && CanBeginDelete(s, t, key)
    ensures Turn(s, DoBeginDelete(s, t, key), t)
  {
    hide Inv, Turn;
    ThreadIsOk(s, t);
    MoveTurns(s, DoBeginDelete(s, t, key), t);
  }

  lemma TakeSnapshotTurns(s: State, t: Tid, todo: seq<Cid>)
    requires Inv(s) && CanTakeSnapshot(s, t, todo)
    ensures Turn(s, DoTakeSnapshot(s, t, todo), t)
  {
    CachedAreKnown(s, todo);
    assert ThreadOk(DoTakeSnapshot(s, t, todo), t);
    MoveTurns(s, s.(threads := s.threads[t := s.threads[t].(pc := Pass, todo := todo)]), t);
  }

  lemma DropNextTurns(s: State, t: Tid)
    requires Inv(s) && CanDropNext(s, t)
    ensures Turn(s, DoDropNext(s, t), t)
  {
    var c := s.threads[t].todo[0];
    if c in s.cache {
      InvAround(s, t, Some(c), None);
      DropOneIsLocal(s, t, c);
    } else {
      assert ThreadOk(s, t);
      MoveTurns(s, s.(threads := s.threads[t := s.threads[t].(todo := s.threads[t].todo[1..])]), t);
    }
  }

  lemma IdleNextTurns(s: State, t: Tid)
    requires Inv(s) && CanIdleNext(s, t)
    ensures Turn(s, DoIdleNext(s, t), t)
  {
    var c := s.threads[t].todo[0];
    var rest := s.threads[t].todo[1..];
    var s' := DoIdleNext(s, t);
    if s' == s.(threads := s.threads[t := s.threads[t].(todo := rest)]) {
      assert ThreadOk(s, t);
      MoveTurns(s, s.(threads := s.threads[t := s.threads[t].(todo := rest)]), t);
    } else {
      var sid := s.conns[c].session.value;
      InvAround(s, t, Some(c), Some(sid));
      TakeIdleIsLocal(s, t, c, sid, rest);
    }
  }

  lemma FinishTurns(s: State, t: Tid)
    requires Inv(s) && CanFinish(s, t)
    ensures Turn(s, DoFinish(s, t), t)
  {
    hide Inv, Turn;
    ThreadIsOk(s, t);
    MoveTurns(s, DoFinish(s, t), t);
  }

  lemma EndsTurns(s: State, t: Tid, e: EndEvent)
    requires Inv(s) && CanEnds(s, t, e)
    ensures Turn(s, NextEnds(s, t, e), t)
  {
    match e
    case SetClosed =>
      var c := s.threads[t].pc.c;
      InvAround(s, t, Some(c), None);
      SetClosedIsLocal(s, t, c);
    case TakeSession => TakeSessionTurns(s, t);
    case CloseTaken =>
      var sid := s.threads[t].pc.s;
      InvAround(s, t, None, Some(sid));
      CloseTakenIsLocal(s, t, sid);
    case BeginDropPass(todo, _) =>
      CachedAreKnown(s, todo);
      BeginTurns(s, t, Pass, todo, None);
    case BeginIdlePass(todo) =>
      CachedAreKnown(s, todo);
      BeginTurns(s, t, IdlePass, todo, None);
    case BeginDelete(key) => BeginDeleteTurns(s, t, key);
    case TakeSnapshot(todo) => TakeSnapshotTurns(s, t, todo);
    case DropNext => DropNextTurns(s, t);
    case IdleNext => IdleNextTurns(s, t);
    case CloseIdle =>
      var IdleShut(c, sid) := s.threads[t].pc;
      InvAround(s, t, Some(c), Some(sid));
      CloseIdleIsLocal(s, t, c, sid);
    case Finish => FinishTurns(s, t);
  }

  lemma WorldKeeps(s: State, e: WorldEvent)
    requires Inv(s)
    ensures Inv(NextWorld(s, e))
  {
    SameCacheKeeps(s, NextWorld(s, e));
  }

  lemma NextTurns(s: State, e: Event)
    requires Inv(s) && Can(s, e) && !e.World?
    ensures Turn(s, Next(s, e), e.t)
  {
    hide Inv, Turn, NextWorld, NextConnects, NextOpens, NextUses, NextEnds, CanConnects, CanOpens, CanUses, CanEnds;
    match e
    case Connects(t, connects) => ConnectsTurns(s, t, connects);
    case Opens(t, opens) => OpensTurns(s, t, opens);
    case Uses(t, uses) => UsesTurns(s, t, uses);
    case Ends(t, ends) => EndsTurns(s, t, ends);
  }

  lemma ThreadExists(s: State, e: Event)
    requires Can(s, e) && !e.World?
    ensures e.t in s.threads
  {
  }

  /** Every event keeps the invariant. */
  lemma NextKeeps(s: State, e: Event)
    requires Inv(s) && Can(s, e)
    ensures Inv(Next(s, e))
  {
    hide Inv, Turn, NextWorld, NextConnects, NextOpens, NextUses, NextEnds, CanConnects, CanOpens, CanUses, CanEnds;
    if e.World? {
      WorldKeeps(s, e.world);
    } else {
      NextTurns(s, e);
      TurnKeepsInv(s, Next(s, e), e.t);
    }
  }

  lemma {:induction false} RunKeeps(s: State, events: seq<Event>)
    requires Inv(s) && Possible(s, events)
    ensures Inv(After(s, events))
    decreases |events|
  {
    hide Inv;
    if events != [] {
      NextKeeps(s, events[0]);
      RunKeeps(Next(s, events[0]), events[1..]);
    }
  }

  /** Some run, of any number of threads, leads to it. */
  ghost predicate Reachable(s: State) {
    exists start: State, events: seq<Event> :: Initial(start) && Possible(start, events) && After(start, events) == s
  }

  lemma ReachableInv(s: State)
    requires Reachable(s)
    ensures Inv(s)
  {
    hide Inv, Initial;
    var start: State, events: seq<Event> :| Initial(start) && Possible(start, events) && After(start, events) == s;
    InitialInv(start);
    RunKeeps(start, events);
  }

  lemma WorldLeavesThreads(s: State, w: WorldEvent)
    ensures NextWorld(s, w).threads == s.threads
  {
  }

  lemma TurnLeavesThreads(s: State, s': State, t: Tid, other: Tid)
    requires Turn(s, s', t) && other != t && (other in s.threads || other in s'.threads)
    ensures other in s.threads && other in s'.threads && s'.threads[other] == s.threads[other]
  {
    hide ThreadOk, ConnOk, SessionOk, BirthOk, OnlyConn, OnlySession, LetsGo;
  }

  /** Only a thread's own events move it. */
  lemma OtherThreadStays(s: State, e: Event, t: Tid)
    requires Inv(s) && Can(s, e) && (e.World? || e.t != t) && (t in s.threads || t in Next(s, e).threads)
    ensures t in s.threads && t in Next(s, e).threads && Next(s, e).threads[t] == s.threads[t]
  {
    hide Inv, Turn, NextWorld, NextConnects, NextOpens, NextUses, NextEnds, CanConnects, CanOpens, CanUses, CanEnds;
    if e.World? {
      WorldLeavesThreads(s, e.world);
    } else {
      hide Next, Can;
      NextTurns(s, e);
      TurnLeavesThreads(s, Next(s, e), e.t, t);
    }
  }

  lemma ClockAndSettings(s: State, e: Event)
    requires Inv(s) && Can(s, e)
    ensures s.now <= Next(s, e).now && Next(s, e).cfg == s.cfg
  {
    hide Inv, NextConnects, NextOpens, NextUses, NextEnds, CanConnects, CanOpens, CanUses, CanEnds, Turn;
    if !e.World? {
      hide Next, Can;
      NextTurns(s, e);
      TurnKeepsClock(s, Next(s, e), e.t);
    }
  }

  lemma TurnKeepsClock(s: State, s': State, t: Tid)
    requires Turn(s, s', t)
    ensures s'.now == s.now && s'.cfg == s.cfg
  {
    hide OnlyConn, OnlySession, LetsGo, ThreadOk, ConnOk, SessionOk, BirthOk;
  }
}
