/** Every run of bounded canary sessions: plans are used in order, one attempt at a time, and
    sessions only move forward. */
module CanaryHistory {
  import opened Common
  import opened CanarySession

  // ---- Refreshing attempts --------------------------------------------------------------

  /** `b` is `a`, or `a` closed. */
  predicate ClosedFrom(a: Attempt, b: Attempt) {
    b == a || (Pending(a) && b.state.Terminal? && b == a.(state := b.state))
  }

  lemma {:induction false} SettleAllCloses(attempts: seq<Attempt>, n: nat, arms: map<string, Arm>, now: int, findings: Findings)
    requires n <= |attempts| && SettleAll(attempts, n, arms, now, findings).Ok?
    ensures var done := SettleAll(attempts, n, arms, now, findings).value.0;
            forall i :: 0 <= i < |attempts| ==> ClosedFrom(attempts[i], done[i]) && (i >= n ==> done[i] == attempts[i])
    decreases n
  {
    if n > 0 {
      SettleAllCloses(attempts, n - 1, arms, now, findings);
    }
  }

  /** Closing attempts of a session keeps what it promised. */
  lemma CloseAttempts(k: Key, s: Session, attempts: seq<Attempt>)
    requires SessionOk(k, s) && |attempts| == |s.attempts|
    requires forall i :: 0 <= i < |attempts| ==> ClosedFrom(s.attempts[i], attempts[i])
    ensures SessionOk(k, s.(attempts := attempts)) && Forward(s, s.(attempts := attempts))
  {
  }

  lemma RefreshedSession(d: Desk, k: Key, findings: Findings)
    requires DeskOk(d) && k in d.sessions && RefreshAttempts(d, k, findings).Ok?
    ensures var t := RefreshAttempts(d, k, findings).value;
            && t.now == d.now && t.sessions == d.sessions[k := t.sessions[k]]
            && t.sessions[k] == d.sessions[k].(attempts := t.sessions[k].attempts)
            && SessionOk(k, t.sessions[k]) && Forward(d.sessions[k], t.sessions[k])
  {
    var s := d.sessions[k];
    SettleAllCloses(s.attempts, |s.attempts|, d.arms, d.now, findings);
    CloseAttempts(k, s, RefreshAttempts(d, k, findings).value.sessions[k].attempts);
  }

  // ---- One step -------------------------------------------------------------------------

  lemma ForwardRefl(s: Session)
    ensures Forward(s, s)
  {
  }

  lemma ForwardTrans(a: Session, b: Session, c: Session)
    requires Forward(a, b) && Forward(b, c)
    ensures Forward(a, c)
  {
    forall i | 0 <= i < |a.attempts|
      ensures AttemptForward(a.attempts[i], c.attempts[i])
    {
      assert AttemptForward(a.attempts[i], b.attempts[i]) && AttemptForward(b.attempts[i], c.attempts[i]);
    }
  }

  /** Replacing one session by a legitimate successor. */
  lemma PutSession(d: Desk, e: Desk, k: Key, t: Session)
    requires DeskOk(d) && k in d.sessions && e.sessions == d.sessions[k := t]
    requires SessionOk(k, t) && Forward(d.sessions[k], t)
    ensures DeskOk(e) && DeskForward(d, e)
  {
    StaysExclusive(d, e, k, t);
    forall o | o in d.sessions
      ensures o in e.sessions && Forward(d.sessions[o], e.sessions[o])
    {
      ForwardRefl(d.sessions[o]);
    }
  }

  lemma StaysExclusive(d: Desk, e: Desk, k: Key, t: Session)
    requires Exclusive(d) && k in d.sessions && e.sessions == d.sessions[k := t] && ModeRank(d.sessions[k].mode) <= ModeRank(t.mode)
    ensures Exclusive(e)
  {
    assert Active(t) ==> Active(d.sessions[k]);
  }

  lemma SameSessions(d: Desk, e: Desk)
    requires DeskOk(d) && e.sessions == d.sessions
    ensures DeskOk(e) && DeskForward(d, e)
  {
    forall o | o in d.sessions
      ensures Forward(d.sessions[o], e.sessions[o])
    {
      ForwardRefl(d.sessions[o]);
    }
  }

  /** A new session beside the stored ones. */
  lemma AddSession(d: Desk, e: Desk, k: Key, s: Session)
    requires DeskOk(d) && k !in d.sessions && e.sessions == d.sessions[k := s] && SessionOk(k, s)
    requires forall o :: o in d.sessions ==> o.receipt != k.receipt && (o.project == k.project ==> !Active(d.sessions[o]))
    ensures DeskOk(e) && DeskForward(d, e)
  {
    AddedIsExclusive(d, e, k, s);
    forall o | o in d.sessions
      ensures o in e.sessions && Forward(d.sessions[o], e.sessions[o])
    {
      ForwardRefl(d.sessions[o]);
    }
  }

  lemma AddedIsExclusive(d: Desk, e: Desk, k: Key, s: Session)
    requires Exclusive(d) && k !in d.sessions && e.sessions == d.sessions[k := s]
    requires forall o :: o in d.sessions ==> o.receipt != k.receipt && (o.project == k.project ==> !Active(d.sessions[o]))
    ensures Exclusive(e)
  {
  }

  lemma ArmStep(d: Desk, k: Key, receiptOk: bool, tradeOpen: bool)
    requires DeskOk(d)
    ensures DeskOk(ArmSession(d, k, receiptOk, tradeOpen).0) && DeskForward(d, ArmSession(d, k, receiptOk, tradeOpen).0)
  {
    if ArmSession(d, k, receiptOk, tradeOpen).1.Ok? && k !in d.sessions {
      AddSession(d, ArmSession(d, k, receiptOk, tradeOpen).0, k, Session(Armed, None, d.now + k.plan.duration, 0, []));
    } else {
      SameSessions(d, d);
    }
  }

  lemma ReservedOk(k: Key, s: Session, q: Request)
    requires SessionOk(k, s) && (s.mode == Armed || s.mode == Running) && !AnyPending(s.attempts)
    requires s.reserved + 1 <= k.plan.cap && s.reserved + 1 <= |k.plan.slots| && k.plan.slots[s.reserved] == q.slot
    ensures SessionOk(k, Reserved(s, q)) && Forward(s, Reserved(s, q))
  {
    assert forall i :: 0 <= i < |s.attempts| ==> !Pending(s.attempts[i]);
  }

  /** What a reservation that takes a slot does to the desk. */
  lemma ReserveShape(d: Desk, k: Key, q: Request, findings: Findings)
    requires ReserveAttempt(d, k, q, findings).0 != d
    ensures k in d.sessions && RefreshAttempts(d, k, findings).Ok?
    ensures var s := RefreshAttempts(d, k, findings).value.sessions[k];
            && ReserveAttempt(d, k, q, findings).0.sessions == d.sessions[k := Reserved(s, q)]
            && (d.sessions[k].mode == Armed || d.sessions[k].mode == Running) && !AnyPending(s.attempts)
            && s.reserved + 1 <= k.plan.cap && s.reserved + 1 <= |k.plan.slots| && k.plan.slots[s.reserved] == q.slot
  {
  }

  lemma ReserveStep(d: Desk, k: Key, q: Request, findings: Findings)
    requires DeskOk(d)
    ensures DeskOk(ReserveAttempt(d, k, q, findings).0) && DeskForward(d, ReserveAttempt(d, k, q, findings).0)
  {
    var e := ReserveAttempt(d, k, q, findings).0;
    if e == d {
      SameSessions(d, d);
    } else {
      ReserveShape(d, k, q, findings);
      RefreshedSession(d, k, findings);
      var s := RefreshAttempts(d, k, findings).value.sessions[k];
      ReservedOk(k, s, q);
      ForwardTrans(d.sessions[k], s, Reserved(s, q));
      PutSession(d, e, k, Reserved(s, q));
    }
  }

  lemma ConsumeStep(d: Desk, k: Key, i: nat)
    requires DeskOk(d)
    ensures DeskOk(Consume(d, k, i)) && DeskForward(d, Consume(d, k, i))
  {
    var e := Consume(d, k, i);
    if e.sessions == d.sessions {
      SameSessions(d, e);
    } else {
      var s, t := d.sessions[k], e.sessions[k];
      assert forall j :: 0 <= j < |s.attempts| && j != i ==> t.attempts[j] == s.attempts[j];
      PutSession(d, e, k, t);
    }
  }

  lemma CloseOk(k: Key, s: Session, now: int)
    requires SessionOk(k, s)
    ensures SessionOk(k, Close(s, k, now)) && Forward(s, Close(s, k, now))
  {
  }

  lemma RefreshShape(d: Desk, k: Key, findings: Findings)
    requires DeskOk(d) && k in d.sessions && RefreshAttempts(d, k, findings).Ok?
    ensures var t := RefreshAttempts(d, k, findings).value;
            Refresh(d, k, findings).0.sessions == d.sessions[k := Close(t.sessions[k], k, t.now)]
  {
    RefreshedSession(d, k, findings);
  }

  lemma RefreshStep(d: Desk, k: Key, findings: Findings)
    requires DeskOk(d)
    ensures DeskOk(Refresh(d, k, findings).0) && DeskForward(d, Refresh(d, k, findings).0)
  {
    if k !in d.sessions || RefreshAttempts(d, k, findings).Err? {
      SameSessions(d, d);
    } else {
      RefreshedSession(d, k, findings);
      RefreshShape(d, k, findings);
      var t := RefreshAttempts(d, k, findings).value;
      var closed := Close(t.sessions[k], k, t.now);
      CloseOk(k, t.sessions[k], t.now);
      ForwardTrans(d.sessions[k], t.sessions[k], closed);
      PutSession(d, Refresh(d, k, findings).0, k, closed);
    }
  }

  lemma StopStep(d: Desk, k: Key, reason: string)
    requires DeskOk(d)
    ensures DeskOk(Stop(d, k, reason).0) && DeskForward(d, Stop(d, k, reason).0)
  {
    var e := Stop(d, k, reason).0;
    if e == d {
      SameSessions(d, d);
    } else {
      PutSession(d, e, k, e.sessions[k]);
    }
  }

  lemma Step(d: Desk, op: Op)
    requires DeskOk(d)
    ensures DeskOk(Next(d, op)) && DeskForward(d, Next(d, op))
  {
    match op
    case Tick(_) => SameSessions(d, Next(d, op));
    case DoArm(k, receiptOk, tradeOpen) => ArmStep(d, k, receiptOk, tradeOpen);
    case DoReserve(k, q, findings) => ReserveStep(d, k, q, findings);
    case DoConsume(k, i) => ConsumeStep(d, k, i);
    case DoRefresh(k, findings) => RefreshStep(d, k, findings);
    case DoStop(k, reason) => StopStep(d, k, reason);
  }

  lemma DeskForwardTrans(a: Desk, b: Desk, c: Desk)
    requires DeskForward(a, b) && DeskForward(b, c)
    ensures DeskForward(a, c)
  {
    forall k | k in a.sessions
      ensures k in c.sessions && Forward(a.sessions[k], c.sessions[k])
    {
      ForwardTrans(a.sessions[k], b.sessions[k], c.sessions[k]);
    }
  }

  // ---- Whole runs -----------------------------------------------------------------------

  /** In every reachable state each session's attempts are a prefix of its plan within the cap, at
      most the newest is unfinished, one session per project is active, and between any two states
      of a run every session and attempt only moves forward. */
  lemma {:induction false} SessionsMoveForward(d: Desk, ops: seq<Op>)
    requires DeskOk(d)
    ensures DeskOk(Run(d, ops)) && DeskForward(d, Run(d, ops))
    decreases |ops|
  {
    if ops == [] {
      SameSessions(d, d);
    } else {
      Step(d, ops[0]);
      SessionsMoveForward(Next(d, ops[0]), ops[1..]);
      DeskForwardTrans(d, Next(d, ops[0]), Run(d, ops));
    }
  }

  /** After a stop nothing new is started: whatever follows, no attempt is added or consumed. */
  lemma StopIsFinal(d: Desk, k: Key, reason: string, ops: seq<Op>, i: nat)
    requires DeskOk(d) && k in d.sessions && StopReasonOk(reason)
    ensures var s, t := d.sessions[k], Run(Stop(d, k, reason).0, ops);
            && k in t.sessions && |t.sessions[k].attempts| == |s.attempts|
            && (i < |s.attempts| && s.attempts[i].state == Waiting ==> t.sessions[k].attempts[i].state != Consumed)
  {
    StopStep(d, k, reason);
    StopDrains(d, k, reason);
    SessionsMoveForward(Stop(d, k, reason).0, ops);
    assert Forward(Stop(d, k, reason).0.sessions[k], Run(Stop(d, k, reason).0, ops).sessions[k]);
  }

  lemma StopDrains(d: Desk, k: Key, reason: string)
    requires k in d.sessions && StopReasonOk(reason)
    ensures var e := Stop(d, k, reason).0;
            k in e.sessions && e.sessions[k].attempts == d.sessions[k].attempts && ModeRank(e.sessions[k].mode) >= 2
  {
  }

  // ---- Arms ---------------------------------------------------------------------------

  ghost predicate ArmsKept(arms: map<string, Arm>, later: map<string, Arm>) {
    forall a :: a in arms ==> a in later
  }

  /** Every attempt's arm is stored. */
  ghost predicate ArmsStored(d: Desk) {
    forall k, i :: k in d.sessions && 0 <= i < |d.sessions[k].attempts| ==> d.sessions[k].attempts[i].arm in d.arms
  }

  lemma {:induction false} SettlingKeepsArms(attempts: seq<Attempt>, n: nat, arms: map<string, Arm>, now: int, findings: Findings)
    requires n <= |attempts| && SettleAll(attempts, n, arms, now, findings).Ok?
    ensures ArmsKept(arms, SettleAll(attempts, n, arms, now, findings).value.1)
    decreases n
  {
    if n > 0 {
      SettlingKeepsArms(attempts, n - 1, arms, now, findings);
    }
  }

  /** Attempts that only moved forward, on arms that were only added, still have their arms. */
  lemma ForwardKeepsArms(d: Desk, e: Desk)
    requires ArmsStored(d) && DeskForward(d, e) && ArmsKept(d.arms, e.arms) && e.sessions.Keys == d.sessions.Keys
    requires forall k :: k in d.sessions ==> |e.sessions[k].attempts| == |d.sessions[k].attempts|
    ensures ArmsStored(e)
  {
    forall k, i | k in e.sessions && 0 <= i < |e.sessions[k].attempts|
      ensures e.sessions[k].attempts[i].arm in e.arms
    {
      assert Forward(d.sessions[k], e.sessions[k]);
      assert AttemptForward(d.sessions[k].attempts[i], e.sessions[k].attempts[i]);
    }
  }

  lemma RefreshKeepsArms(d: Desk, k: Key, findings: Findings)
    requires DeskOk(d) && ArmsStored(d) && k in d.sessions && RefreshAttempts(d, k, findings).Ok?
    ensures var t := RefreshAttempts(d, k, findings).value; ArmsStored(t) && ArmsKept(d.arms, t.arms)
  {
    var t := RefreshAttempts(d, k, findings).value;
    SettlingKeepsArms(d.sessions[k].attempts, |d.sessions[k].attempts|, d.arms, d.now, findings);
    RefreshedSession(d, k, findings);
    PutSession(d, t, k, t.sessions[k]);
    ForwardKeepsArms(d, t);
  }

  lemma ReservingKeepsArms(d: Desk, k: Key, q: Request, findings: Findings)
    requires DeskOk(d) && ArmsStored(d)
    ensures var e := ReserveAttempt(d, k, q, findings).0; ArmsStored(e) && ArmsKept(d.arms, e.arms)
    ensures ReserveAttempt(d, k, q, findings).1.Ok? ==> q.arm in ReserveAttempt(d, k, q, findings).0.arms
  {
    if ReserveAttempt(d, k, q, findings).1.Ok? && FindSlot(d.sessions[k].attempts, q.slot).None? {
      RefreshKeepsArms(d, k, findings);
      var t := RefreshAttempts(d, k, findings).value;
      NewAttemptHasItsArm(t, k, q);
    }
  }

  lemma NewAttemptHasItsArm(d: Desk, k: Key, q: Request)
    requires ArmsStored(d) && k in d.sessions && Reserve(d, k, q).1.Ok?
    ensures var e := Reserve(d, k, q).0; ArmsStored(e) && ArmsKept(d.arms, e.arms) && q.arm in e.arms
  {
    var s, e := d.sessions[k], Reserve(d, k, q).0;
    forall o, i | o in e.sessions && 0 <= i < |e.sessions[o].attempts|
      ensures e.sessions[o].attempts[i].arm in e.arms
    {
      assert o != k ==> e.sessions[o] == d.sessions[o];
      assert o == k && i < |s.attempts| ==> e.sessions[o].attempts[i] == s.attempts[i];
    }
  }

  lemma RefreshingKeepsArms(d: Desk, k: Key, findings: Findings)
    requires DeskOk(d) && ArmsStored(d)
    ensures var e := Refresh(d, k, findings).0; ArmsStored(e) && ArmsKept(d.arms, e.arms)
  {
    if k in d.sessions && RefreshAttempts(d, k, findings).Ok? {
      RefreshKeepsArms(d, k, findings);
      var t, e := RefreshAttempts(d, k, findings).value, Refresh(d, k, findings).0;
      RefreshedSession(d, k, findings);
      assert e.arms == t.arms && e.sessions[k].attempts == t.sessions[k].attempts;
      assert forall o :: o in e.sessions && o != k ==> e.sessions[o] == t.sessions[o];
    }
  }

  lemma ConsumingKeepsArms(d: Desk, k: Key, i: nat)
    requires DeskOk(d) && ArmsStored(d)
    ensures var e := Consume(d, k, i); ArmsStored(e) && ArmsKept(d.arms, e.arms)
  {
    ConsumeStep(d, k, i);
    ConsumeShape(d, k, i);
    ForwardKeepsArms(d, Consume(d, k, i));
  }

  /** Consuming adds no session, no attempt and no arm, and removes none. */
  lemma ConsumeShape(d: Desk, k: Key, i: nat)
    ensures var e := Consume(d, k, i);
            && e.sessions.Keys == d.sessions.Keys && ArmsKept(d.arms, e.arms)
            && forall o :: o in d.sessions ==> |e.sessions[o].attempts| == |d.sessions[o].attempts|
  {
  }

  /** Arms are never deleted, so every attempt's arm stays stored. */
  lemma ArmsStep(d: Desk, op: Op)
    requires DeskOk(d) && ArmsStored(d)
    ensures ArmsStored(Next(d, op)) && ArmsKept(d.arms, Next(d, op).arms)
  {
    match op
    case DoReserve(k, q, findings) => ReservingKeepsArms(d, k, q, findings);
    case DoRefresh(k, findings) => RefreshingKeepsArms(d, k, findings);
    case DoConsume(k, i) => ConsumingKeepsArms(d, k, i);
    case _ =>
  }

  lemma {:induction false} ArmsStayStored(d: Desk, ops: seq<Op>)
    requires DeskOk(d) && ArmsStored(d)
    ensures ArmsStored(Run(d, ops)) && ArmsKept(d.arms, Run(d, ops).arms)
    decreases |ops|
  {
    if ops != [] {
      Step(d, ops[0]);
      ArmsStep(d, ops[0]);
      ArmsStayStored(Next(d, ops[0]), ops[1..]);
    }
  }

  /** From any reachable desk, a reservation repeated with the same arm and review, at any later time,
      reports the stored attempt (which may have moved on) and changes nothing. */
  lemma ReservationRepeats(now: int, before: seq<Op>, k: Key, q: Request, first: Findings, ops: seq<Op>, again: Findings)
    requires ReserveAttempt(Run(Desk(now, map[], map[]), before), k, q, first).1.Ok?
    ensures var (e, a) := ReserveAttempt(Run(Desk(now, map[], map[]), before), k, q, first);
            var t := Run(e, ops);
            var (u, b) := ReserveAttempt(t, k, q, again);
            u == t && b.Ok? && AttemptForward(a.value, b.value)
  {
    SessionsMoveForward(Desk(now, map[], map[]), before);
    ArmsStayStored(Desk(now, map[], map[]), before);
    ReservedRepeats(Run(Desk(now, map[], map[]), before), k, q, first, ops, again);
  }

  lemma ReservedRepeats(d: Desk, k: Key, q: Request, first: Findings, ops: seq<Op>, again: Findings)
    requires DeskOk(d) && ArmsStored(d) && ReserveAttempt(d, k, q, first).1.Ok?
    ensures var (e, a) := ReserveAttempt(d, k, q, first);
            var t := Run(e, ops);
            var (u, b) := ReserveAttempt(t, k, q, again);
            u == t && b.Ok? && AttemptForward(a.value, b.value)
  {
    var e := ReserveAttempt(d, k, q, first).0;
    var i := ReservedIsStored(d, k, q, first);
    ReserveStep(d, k, q, first);
    ReservingKeepsArms(d, k, q, first);
    SessionsMoveForward(e, ops);
    ArmsStayStored(e, ops);
    RepeatAt(e, Run(e, ops), k, q, i, again);
  }

  lemma ReservedIsStored(d: Desk, k: Key, q: Request, findings: Findings) returns (i: nat)
    requires DeskOk(d) && ReserveAttempt(d, k, q, findings).1.Ok?
    ensures var (e, a) := ReserveAttempt(d, k, q, findings);
            && k in e.sessions && i < |e.sessions[k].attempts| && e.sessions[k].attempts[i] == a.value
            && a.value.slot == q.slot && a.value.arm == q.arm && a.value.review == q.review && q.slot in k.plan.slots
  {
    var (e, a) := ReserveAttempt(d, k, q, findings);
    if FindSlot(d.sessions[k].attempts, q.slot).Some? {
      i :| 0 <= i < |e.sessions[k].attempts| && e.sessions[k].attempts[i] == a.value;
    } else {
      i := |e.sessions[k].attempts| - 1;
    }
  }

  lemma RepeatAt(e: Desk, t: Desk, k: Key, q: Request, i: nat, findings: Findings)
    requires DeskOk(t) && DeskForward(e, t) && k in e.sessions && i < |e.sessions[k].attempts| && q.slot in k.plan.slots
    requires var a := e.sessions[k].attempts[i]; a.slot == q.slot && a.arm == q.arm && a.review == q.review
    requires q.arm in t.arms
    ensures var (u, b) := ReserveAttempt(t, k, q, findings);
            u == t && b.Ok? && AttemptForward(e.sessions[k].attempts[i], b.value)
  {
    assert Forward(e.sessions[k], t.sessions[k]);
    assert AttemptForward(e.sessions[k].attempts[i], t.sessions[k].attempts[i]);
    FoundSlotIsUnique(k, t.sessions[k], i);
  }

  lemma FoundSlotIsUnique(k: Key, s: Session, i: nat)
    requires SessionOk(k, s) && i < |s.attempts|
    ensures FindSlot(s.attempts, s.attempts[i].slot) == Some(s.attempts[i])
  {
    var found := FindSlot(s.attempts, s.attempts[i].slot);
    assert found.Some?;
    var j :| 0 <= j < |s.attempts| && s.attempts[j] == found.value;
    assert k.plan.slots[i] == k.plan.slots[j];
  }

  /** A draining session whose attempts are all settled ends at its next refresh. */
  lemma DrainingEnds(d: Desk, k: Key, findings: Findings)
    requires DeskOk(d) && k in d.sessions && d.sessions[k].mode == Draining && RefreshAttempts(d, k, findings).Ok?
    requires !AnyPending(RefreshAttempts(d, k, findings).value.sessions[k].attempts)
    ensures var t := Refresh(d, k, findings).0;
            t.sessions[k].mode == if d.sessions[k].stopReason == Some(OPERATOR_STOP) then Aborted else Incomplete
  {
  }
}
