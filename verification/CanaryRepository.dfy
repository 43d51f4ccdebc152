/** The session half of CanarySessionRepository, with its tables as fields; each method is one
    transaction and is proved to be one step of the session protocol. */
module CanaryRepository {
  import opened Common
  import opened CanarySession
  import opened CanaryHistory

  class CanarySessionRepository {
    var now: int
    var sessions: map<Key, Session>
    var arms: map<string, Arm>

    function View(): Desk
      reads this
    {
      Desk(now, sessions, arms)
    }

    ghost predicate Valid()
      reads this
    {
      DeskOk(View())
    }

    constructor (now: int)
      ensures Valid() && View() == Desk(now, map[], map[])
    {
      this.now, sessions, arms := now, map[], map[];
    }

    method Arm(k: Key, receiptOk: bool, tradeOpen: bool) returns (r: Result<Session, Error>)
      requires Valid()
      modifies this
      ensures Valid() && DeskForward(old(View()), View())
      ensures (View(), r) == ArmSession(old(View()), k, receiptOk, tradeOpen)
    {
      ArmStep(View(), k, receiptOk, tradeOpen);
      r := ArmLocked(k, receiptOk, tradeOpen);
    }

    method ArmLocked(k: Key, receiptOk: bool, tradeOpen: bool) returns (r: Result<Session, Error>)
      modifies this
      ensures (View(), r) == ArmSession(old(View()), k, receiptOk, tradeOpen)
    {
      if !PlanOk(k.plan) {
        return Err(Refused);
      }
      if k in sessions {
        return Ok(sessions[k]);
      }
      if !receiptOk || tradeOpen {
        return Err(Refused);
      }
      if exists o :: o in sessions && o.project == k.project && Active(sessions[o]) {
        return Err(Refused);
      }
      if exists o :: o in sessions && o.receipt == k.receipt {
        return Err(Refused);
      }
      var s := Session(Armed, None, now + k.plan.duration, 0, []);
      sessions := sessions[k := s];
      r := Ok(s);
    }

    /** `refresh_attempts`: what the loop over a session's unfinished attempts makes of its rows. */
    method SettleAttempts(attempts: seq<Attempt>, findings: Findings) returns (r: Result<(seq<Attempt>, map<string, Arm>), Error>)
      ensures r == SettleAll(attempts, |attempts|, arms, now, findings)
    {
      var done, known := attempts, arms;
      for n := 0 to |attempts|
        invariant SettleAll(attempts, n, arms, now, findings) == Ok((done, known))
        invariant |done| == |attempts|
      {
        var a := attempts[n];
        if Pending(a) {
          if a.arm in known && known[a.arm].status != ArmConsumed && known[a.arm].expiresAt < now {
            known := known[a.arm := known[a.arm].(status := ArmExpired)];
            a := a.(state := Terminal("ENTRY_EXPIRED"));
          } else if a.review in findings {
            match findings[a.review] {
              case Unsettled =>
              case Foreign =>
                FailureSticks(attempts, n + 1, |attempts|, arms, now, findings);
                return Err(Conflict);
              case Settled(reason) => a := a.(state := Terminal(reason));
            }
          }
        }
        done := done[n := a];
      }
      r := Ok((done, known));
    }

    static lemma {:induction false} FailureSticks(attempts: seq<Attempt>, n: nat, m: nat, arms: map<string, CanarySession.Arm>, now: int, findings: Findings)
      requires n <= m <= |attempts| && SettleAll(attempts, n, arms, now, findings).Err?
      ensures SettleAll(attempts, m, arms, now, findings) == SettleAll(attempts, n, arms, now, findings)
      decreases m
    {
      if n < m {
        FailureSticks(attempts, n, m - 1, arms, now, findings);
      }
    }

    method ReserveSlot(k: Key, q: Request, findings: Findings) returns (r: Result<Attempt, Error>)
      requires Valid()
      modifies this
      ensures Valid() && DeskForward(old(View()), View())
      ensures (View(), r) == ReserveAttempt(old(View()), k, q, findings)
    {
      ReserveStep(View(), k, q, findings);
      r := ReserveLocked(k, q, findings);
    }

    method ReserveLocked(k: Key, q: Request, findings: Findings) returns (r: Result<Attempt, Error>)
      modifies this
      ensures (View(), r) == ReserveAttempt(old(View()), k, q, findings)
    {
      if k !in sessions || (q.arm !in arms && q.armExpiresAt < now) || q.slot !in k.plan.slots {
        return Err(Refused);
      }
      var s := sessions[k];
      var existing := FindSlot(s.attempts, q.slot);
      if existing.Some? {
        return if existing.value.arm != q.arm || existing.value.review != q.review then Err(Conflict) else Ok(existing.value);
      }
      if (s.mode != Armed && s.mode != Running) || now >= s.deadline || q.entryExpiresAt > s.deadline {
        return Err(Refused);
      }
      var settled := SettleAttempts(s.attempts, findings);
      if settled.Err? {
        return Err(settled.error);
      }
      r := TakeSlot(k, s.(attempts := settled.value.0), settled.value.1, q);
    }

    /** The reservation proper, on attempts and arms as refreshed by the same transaction. */
    method TakeSlot(k: Key, s: Session, known: map<string, CanarySession.Arm>, q: Request) returns (r: Result<Attempt, Error>)
      requires k in sessions
      modifies this
      ensures var refreshed := Desk(old(now), old(sessions)[k := s], known);
              && r == Reserve(refreshed, k, q).1
              && View() == if r.Err? then old(View()) else Reserve(refreshed, k, q).0
    {
      var ordinal := s.reserved + 1;
      if AnyPending(s.attempts) || ordinal > k.plan.cap || ordinal > |k.plan.slots| || k.plan.slots[ordinal - 1] != q.slot {
        return Err(Refused);
      }
      if q.arm in known {
        return Err(Conflict);
      }
      var a := Attempt(ordinal, q.slot, q.arm, q.review, Waiting);
      var t := s.(attempts := s.attempts + [a], reserved := ordinal, mode := Running);
      assert sessions[k := s][k := t] == sessions[k := t];
      sessions := sessions[k := t];
      arms := known[q.arm := CanarySession.Arm(ArmReady, q.armExpiresAt)];
      r := Ok(a);
    }

    method ConsumeArm(k: Key, i: nat)
      requires Valid()
      modifies this
      ensures Valid() && DeskForward(old(View()), View()) && View() == Consume(old(View()), k, i)
    {
      ConsumeStep(View(), k, i);
      ConsumeLocked(k, i);
    }

    method ConsumeLocked(k: Key, i: nat)
      modifies this
      ensures View() == Consume(old(View()), k, i)
    {
      if k !in sessions || i >= |sessions[k].attempts| {
        return;
      }
      var s := sessions[k];
      var a := s.attempts[i];
      if a.arm !in arms || arms[a.arm].status != ArmReady || (s.mode != Armed && s.mode != Running) || now >= s.deadline {
        return;
      }
      if arms[a.arm].expiresAt < now {
        arms := arms[a.arm := arms[a.arm].(status := ArmExpired)];
        return;
      }
      arms := arms[a.arm := arms[a.arm].(status := ArmConsumed)];
      sessions := sessions[k := s.(attempts := s.attempts[i := if a.state == Waiting then a.(state := Consumed) else a])];
    }

    method RefreshSession(k: Key, findings: Findings) returns (r: Result<Session, Error>)
      requires Valid()
      modifies this
      ensures Valid() && DeskForward(old(View()), View())
      ensures (View(), r) == Refresh(old(View()), k, findings)
    {
      RefreshStep(View(), k, findings);
      r := RefreshLocked(k, findings);
    }

    method RefreshLocked(k: Key, findings: Findings) returns (r: Result<Session, Error>)
      modifies this
      ensures (View(), r) == Refresh(old(View()), k, findings)
    {
      if k !in sessions {
        return Err(Refused);
      }
      var settled := SettleAttempts(sessions[k].attempts, findings);
      if settled.Err? {
        return Err(settled.error);
      }
      ghost var s := sessions[k].(attempts := settled.value.0);
      var closed := CloseSession(k, sessions[k].(attempts := settled.value.0));
      assert sessions[k := s][k := closed] == sessions[k := closed];
      sessions := sessions[k := closed];
      arms := settled.value.1;
      r := Ok(closed);
    }

    method CloseSession(k: Key, s: Session) returns (closed: Session)
      ensures closed == Close(s, k, now)
    {
      closed := s;
      if (s.mode == Armed || s.mode == Running) && now >= s.deadline {
        closed := closed.(mode := Draining, stopReason := Some("SESSION_DEADLINE"));
      }
      if !AnyPending(s.attempts) && (closed.mode == Draining || s.reserved >= k.plan.cap || s.reserved >= |k.plan.slots|) {
        closed := closed.(mode := if closed.stopReason == Some(OPERATOR_STOP) then Aborted else Incomplete);
      }
    }

    method StopSession(k: Key, reason: string) returns (r: Result<Session, Error>)
      requires Valid()
      modifies this
      ensures Valid() && DeskForward(old(View()), View())
      ensures (View(), r) == Stop(old(View()), k, reason)
    {
      StopStep(View(), k, reason);
      r := StopLocked(k, reason);
    }

    method StopLocked(k: Key, reason: string) returns (r: Result<Session, Error>)
      modifies this
      ensures (View(), r) == Stop(old(View()), k, reason)
    {
      if !StopReasonOk(reason) || k !in sessions {
        return Err(Refused);
      }
      var s := sessions[k];
      if s.mode == Armed || s.mode == Running {
        s := s.(mode := Draining, stopReason := Some(reason));
      }
      sessions := sessions[k := s];
      r := Ok(s);
    }
  }
}
