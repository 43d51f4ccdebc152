/** Bounded canary sessions (canary_session.py, with the consume step of canary_arm.py): sessions
    with a frozen plan of slots, and the attempts that use the slots up in order.

    Every operation is one transaction.  Whether a receipt is verified and fresh, whether a trade is
    open, and what the durable Risk decisions say about an attempt are inputs.  Of the schema's
    unique indexes only the one on an attempt's arm is relied on; the others (one active session,
    one outstanding attempt, one use of a slot or receipt) are shown to hold by the code alone. */
module CanarySession {
  import opened Common

  datatype Plan = Plan(slots: seq<string>, cap: nat, duration: nat)

  /** The session id is a hash of exactly these. */
  datatype Key = Key(receipt: string, project: string, account: string, plan: Plan, nonce: string)

  datatype Mode = Armed | Running | Draining | Aborted | Incomplete

  datatype AttemptState = Waiting | Consumed | Terminal(reason: string)

  datatype Attempt = Attempt(ordinal: nat, slot: string, arm: string, review: string, state: AttemptState)

  datatype Session = Session(mode: Mode, stopReason: Option<string>, deadline: int, reserved: nat, attempts: seq<Attempt>)

  datatype ArmStatus = ArmReady | ArmConsumed | ArmExpired

  datatype Arm = Arm(status: ArmStatus, expiresAt: int)

  datatype Desk = Desk(now: int, sessions: map<Key, Session>, arms: map<string, Arm>)

  /** What the durable decisions, trades and effects say about an attempt's review. */
  datatype Finding = Unsettled | Settled(reason: string) | Foreign

  type Findings = map<string, Finding>

  datatype Error = Unknown | Refused | Conflict

  const OPERATOR_STOP := "OPERATOR_STOP"

  predicate Active(s: Session) {
    s.mode == Armed || s.mode == Running || s.mode == Draining
  }

  predicate PlanOk(p: Plan) {
    5 <= |p.slots| <= p.cap <= 10 && 0 < p.duration <= 7_200_000 && forall i, j :: 0 <= i < j < |p.slots| ==> p.slots[i] != p.slots[j]
  }

  predicate Pending(a: Attempt) {
    !a.state.Terminal?
  }

  predicate AnyPending(attempts: seq<Attempt>) {
    exists i :: 0 <= i < |attempts| && Pending(attempts[i])
  }

  // ---- The transactions -----------------------------------------------------------------

  /** `arm_session`: repeating it returns the stored session and resets nothing. */
  function ArmSession(d: Desk, k: Key, receiptOk: bool, tradeOpen: bool): (Desk, Result<Session, Error>) {
    if !PlanOk(k.plan) then (d, Err(Refused))
    else if k in d.sessions then (d, Ok(d.sessions[k]))
    else if !receiptOk || tradeOpen then (d, Err(Refused))
    else if exists o :: o in d.sessions && o.project == k.project && Active(d.sessions[o]) then (d, Err(Refused))
    else if exists o :: o in d.sessions && o.receipt == k.receipt then (d, Err(Refused))
    else
      var s := Session(Armed, None, d.now + k.plan.duration, 0, []);
      (d.(sessions := d.sessions[k := s]), Ok(s))
  }

  /** One attempt in `refresh_attempts`. */
  function Settle(a: Attempt, arms: map<string, Arm>, now: int, findings: Findings): Result<(Attempt, map<string, Arm>), Error> {
    if !Pending(a) then Ok((a, arms))
    else if a.arm in arms && arms[a.arm].status != ArmConsumed && arms[a.arm].expiresAt < now then
      Ok((a.(state := Terminal("ENTRY_EXPIRED")), arms[a.arm := arms[a.arm].(status := ArmExpired)]))
    else
      match if a.review in findings then findings[a.review] else Unsettled
      case Unsettled => Ok((a, arms))
      case Foreign => Err(Conflict)
      case Settled(reason) => Ok((a.(state := Terminal(reason)), arms))
  }

  /** `refresh_attempts`: the first `n` attempts looked at. */
  function SettleAll(attempts: seq<Attempt>, n: nat, arms: map<string, Arm>, now: int, findings: Findings)
    : (r: Result<(seq<Attempt>, map<string, Arm>), Error>)
    requires n <= |attempts|
    ensures r.Ok? ==> |r.value.0| == |attempts|
  {
    if n == 0 then Ok((attempts, arms))
    else match SettleAll(attempts, n - 1, arms, now, findings)
    case Err(e) => Err(e)
    case Ok((done, more)) =>
      match Settle(attempts[n - 1], more, now, findings)
      case Err(e) => Err(e)
      case Ok((a, last)) => Ok((done[n - 1 := a], last))
  }

  function RefreshAttempts(d: Desk, k: Key, findings: Findings): Result<Desk, Error>
    requires k in d.sessions
  {
    var s := d.sessions[k];
    match SettleAll(s.attempts, |s.attempts|, d.arms, d.now, findings)
    case Err(e) => Err(e)
    case Ok((attempts, arms)) => Ok(d.(sessions := d.sessions[k := s.(attempts := attempts)], arms := arms))
  }

  function FindSlot(attempts: seq<Attempt>, slot: string): (a: Option<Attempt>)
    ensures a.Some? ==> a.value in attempts && a.value.slot == slot
    ensures a.None? ==> forall i :: 0 <= i < |attempts| ==> attempts[i].slot != slot
  {
    if attempts == [] then None
    else if attempts[|attempts| - 1].slot == slot then Some(attempts[|attempts| - 1])
    else FindSlot(attempts[..|attempts| - 1], slot)
  }

  datatype Request = Request(slot: string, arm: string, review: string, armExpiresAt: int, entryExpiresAt: int)

  function Reserved(s: Session, q: Request): Session {
    var ordinal := s.reserved + 1;
    s.(attempts := s.attempts + [Attempt(ordinal, q.slot, q.arm, q.review, Waiting)], reserved := ordinal, mode := Running)
  }

  /** `reserve_attempt` after its refresh; the arm row is inserted by the same transaction. */
  function Reserve(d: Desk, k: Key, q: Request): (Desk, Result<Attempt, Error>)
    requires k in d.sessions
  {
    var s := d.sessions[k];
    var ordinal := s.reserved + 1;
    if AnyPending(s.attempts) then (d, Err(Refused))
    else if ordinal > k.plan.cap || ordinal > |k.plan.slots| then (d, Err(Refused))
    else if k.plan.slots[ordinal - 1] != q.slot then (d, Err(Refused))
    else if q.arm in d.arms then (d, Err(Conflict))
    else
      (d.(sessions := d.sessions[k := Reserved(s, q)], arms := d.arms[q.arm := Arm(ArmReady, q.armExpiresAt)]),
       Ok(Attempt(ordinal, q.slot, q.arm, q.review, Waiting)))
  }

  function ReserveAttempt(d: Desk, k: Key, q: Request, findings: Findings): (Desk, Result<Attempt, Error>) {
    if k !in d.sessions then (d, Err(Refused))
    else
      var s := d.sessions[k];
      var seen := FindSlot(s.attempts, q.slot);
      if q.arm !in d.arms && q.armExpiresAt < d.now then (d, Err(Refused))
      else if q.slot !in k.plan.slots then (d, Err(Refused))
      else if seen.Some? then
        (d, if seen.value.arm != q.arm || seen.value.review != q.review then Err(Conflict) else Ok(seen.value))
      else if (s.mode != Armed && s.mode != Running) || d.now >= s.deadline || q.entryExpiresAt > s.deadline then (d, Err(Refused))
      else match RefreshAttempts(d, k, findings)
      case Err(e) => (d, Err(e))
      case Ok(refreshed) => var (after, r) := Reserve(refreshed, k, q); if r.Err? then (d, r) else (after, r)
  }

  /** `consume` of an attempt's arm. */
  function Consume(d: Desk, k: Key, i: nat): Desk {
    if k !in d.sessions || i >= |d.sessions[k].attempts| then d
    else
      var s := d.sessions[k];
      var a := s.attempts[i];
      if a.arm !in d.arms || d.arms[a.arm].status == ArmExpired then d
      else if (s.mode != Armed && s.mode != Running) || d.now >= s.deadline then d
      else if d.arms[a.arm].status != ArmReady then d
      else if d.arms[a.arm].expiresAt < d.now then d.(arms := d.arms[a.arm := d.arms[a.arm].(status := ArmExpired)])
      else
        var used := if a.state == Waiting then a.(state := Consumed) else a;
        d.(sessions := d.sessions[k := s.(attempts := s.attempts[i := used])],
           arms := d.arms[a.arm := d.arms[a.arm].(status := ArmConsumed)])
  }

  /** The end of `refresh`: the deadline drains, and a drained or used-up session ends. */
  function Close(s: Session, k: Key, now: int): Session {
    var late := if (s.mode == Armed || s.mode == Running) && now >= s.deadline
                then s.(mode := Draining, stopReason := Some("SESSION_DEADLINE")) else s;
    if AnyPending(late.attempts) then late
    else if late.mode == Draining || late.reserved >= k.plan.cap || late.reserved >= |k.plan.slots|
    then late.(mode := if late.stopReason == Some(OPERATOR_STOP) then Aborted else Incomplete)
    else late
  }

  function Refresh(d: Desk, k: Key, findings: Findings): (Desk, Result<Session, Error>) {
    if k !in d.sessions then (d, Err(Refused))
    else match RefreshAttempts(d, k, findings)
    case Err(e) => (d, Err(e))
    case Ok(t) =>
      var s := Close(t.sessions[k], k, t.now);
      (t.(sessions := t.sessions[k := s]), Ok(s))
  }

  predicate StopReasonOk(reason: string) {
    reason in {OPERATOR_STOP, "UNPROTECTED_EXPOSURE", "UNKNOWN_MUTATION", "RECONCILIATION_DRIFT"}
  }

  function Stop(d: Desk, k: Key, reason: string): (Desk, Result<Session, Error>) {
    if !StopReasonOk(reason) || k !in d.sessions then (d, Err(Refused))
    else
      var s := d.sessions[k];
      var t := if s.mode == Armed || s.mode == Running then s.(mode := Draining, stopReason := Some(reason)) else s;
      (d.(sessions := d.sessions[k := t]), Ok(t))
  }

  datatype Op =
    | Tick(now: int)
    | DoArm(key: Key, receiptOk: bool, tradeOpen: bool)
    | DoReserve(key: Key, request: Request, findings: Findings)
    | DoConsume(key: Key, index: nat)
    | DoRefresh(key: Key, findings: Findings)
    | DoStop(key: Key, reason: string)

  function Next(d: Desk, op: Op): Desk {
    match op
    case Tick(now) => if d.now <= now then d.(now := now) else d
    case DoArm(k, receiptOk, tradeOpen) => ArmSession(d, k, receiptOk, tradeOpen).0
    case DoReserve(k, q, findings) => ReserveAttempt(d, k, q, findings).0
    case DoConsume(k, i) => Consume(d, k, i)
    case DoRefresh(k, findings) => Refresh(d, k, findings).0
    case DoStop(k, reason) => Stop(d, k, reason).0
  }

  function Run(d: Desk, ops: seq<Op>): Desk
    decreases |ops|
  {
    if ops == [] then d else Run(Next(d, ops[0]), ops[1..])
  }

  // ---- What every session keeps ---------------------------------------------------------

  /** Attempts are the first slots of the plan in order, and only the newest can be unfinished. */
  ghost predicate AttemptsOk(k: Key, s: Session) {
    && s.reserved == |s.attempts| && |s.attempts| <= |k.plan.slots| && |s.attempts| <= k.plan.cap
    && (forall i :: 0 <= i < |s.attempts| ==> s.attempts[i].ordinal == i + 1 && s.attempts[i].slot == k.plan.slots[i])
    && (forall i :: 0 <= i < |s.attempts| - 1 ==> s.attempts[i].state.Terminal?)
  }

  ghost predicate ModeOk(s: Session) {
    match s.mode
    case Armed => s.stopReason.None? && s.attempts == []
    case Running => s.stopReason.None?
    case Draining => s.stopReason.Some?
    case Aborted => s.stopReason == Some(OPERATOR_STOP) && !AnyPending(s.attempts)
    case Incomplete => s.stopReason != Some(OPERATOR_STOP) && !AnyPending(s.attempts)
  }

  ghost predicate SessionOk(k: Key, s: Session) {
    PlanOk(k.plan) && AttemptsOk(k, s) && ModeOk(s)
  }

  /** One active session per project, one session per receipt. */
  ghost predicate Exclusive(d: Desk) {
    forall a, b :: a in d.sessions && b in d.sessions && a != b ==>
                     a.receipt != b.receipt && (a.project == b.project ==> !Active(d.sessions[a]) || !Active(d.sessions[b]))
  }

  ghost predicate DeskOk(d: Desk) {
    Exclusive(d) && forall k :: k in d.sessions ==> SessionOk(k, d.sessions[k])
  }

  function ModeRank(m: Mode): nat {
    match m case Armed => 0 case Running => 1 case Draining => 2 case Aborted => 3 case Incomplete => 3
  }

  predicate AttemptForward(a: Attempt, b: Attempt) {
    && a.ordinal == b.ordinal && a.slot == b.slot && a.arm == b.arm && a.review == b.review
    && (a.state.Terminal? ==> b == a) && (a.state == Consumed ==> b.state != Waiting)
  }

  /** What a session may become: its mode only moves forward and an ended mode is final; attempts
      are only added and only move forward; outside ARMED and RUNNING none is added or consumed. */
  ghost predicate Forward(s: Session, t: Session) {
    && ModeRank(s.mode) <= ModeRank(t.mode) && (ModeRank(s.mode) == 3 ==> t.mode == s.mode)
    && s.deadline == t.deadline && (s.stopReason.Some? ==> t.stopReason == s.stopReason)
    && |s.attempts| <= |t.attempts|
    && (forall i :: 0 <= i < |s.attempts| ==> AttemptForward(s.attempts[i], t.attempts[i]))
    && (ModeRank(s.mode) >= 2 ==> |t.attempts| == |s.attempts|)
    && (ModeRank(s.mode) >= 2 ==>
          forall i :: 0 <= i < |s.attempts| && s.attempts[i].state == Waiting ==> t.attempts[i].state != Consumed)
  }

  ghost predicate DeskForward(d: Desk, e: Desk) {
    forall k :: k in d.sessions ==> k in e.sessions && Forward(d.sessions[k], e.sessions[k])
  }
}
