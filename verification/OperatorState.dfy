/** The operator latch of operator_control.py for one remote account: its tables, its advisory
    lock, and the dispatch guards that hold the lock across a venue callback.

    A guard acquires the session-level lock, commits a claim in a short transaction, rechecks the
    clock and only then runs the caller's venue code.  Commands and admissions are transactions
    that need the same lock.  Processes may crash anywhere, and a database connection may be
    lost while its process lives on. */
module OperatorState {
  import opened Common

  datatype Action = Arm(session: string, expiresAt: int) | Disarm | Kill

  datatype Command = Command(id: string, scope: string, action: Action, expectedVersion: nat, operator: string)

  datatype LatchState = Armed | Disarmed | Killed

  /** The event hash covers the command, its version, the clock and the previous head. */
  datatype AuditDigest = Zero | EventHash(command: Command, version: nat, observedAt: int, previous: AuditDigest)

  datatype LogRow = LogRow(command: Command, observedAt: int, sha: AuditDigest)

  datatype Latch = Latch(
    scope: string, version: nat, state: LatchState, session: Option<string>, expiresAt: Option<int>, head: AuditDigest)

  /** A canary session as this module reads it. */
  datatype Session = Session(active: bool, scope: string, deadline: int)

  /** The fields of a risk decision the guard compares; `body` is the rest of its fingerprint. */
  datatype Decision = Decision(
    id: string, tradeId: string, body: string, cleared: bool, entryExpires: int, quoteExpires: int)

  datatype Admission = Admission(
    scope: string, version: nat, session: string, decision: Decision, expiresAt: int)

  /** `digest_effect` is injective in the trade id, so the trade id stands for the effect. */
  datatype ClaimRow = ClaimRow(effect: string, decisionId: string, version: nat)

  /** Where a dispatch guard is: lock held, claim committed, or caller's venue code running. */
  datatype Pc = Locked | Claimed | Inside

  datatype Guard = Guard(decision: Decision, scope: string, pc: Pc, admission: Option<Admission>, connected: bool)

  datatype Event =
    | Commanded(version: nat, action: Action)
    | Entered(worker: nat, effect: string, decisionId: string, version: nat)

  datatype State = State(
    now: int,
    latch: Option<Latch>,
    log: seq<LogRow>,
    sessions: map<string, Session>,
    admissions: map<string, Admission>,
    claims: seq<ClaimRow>,
    prepared: set<Decision>,
    lock: Option<nat>,
    guards: map<nat, Guard>,
    trace: seq<Event>)

  datatype Refusal =
    | Missing | ScopeDiffers | AuditInconsistent | NotArmed | SessionInactive | IdentityReused | Stale
    | NotCleared | AuthorityChanged | OtherFence | NoAdmission | AdmissionMismatch | NotPrepared | AlreadyClaimed
    | Busy | Expired | Disconnected

  function StateOf(a: Action): LatchState {
    match a case Arm(_, _) => Armed case Disarm => Disarmed case Kill => Killed
  }

  function SessionOf(a: Action): Option<string> {
    if a.Arm? then Some(a.session) else None
  }

  function ExpiryOf(a: Action): Option<int> {
    if a.Arm? then Some(a.expiresAt) else None
  }

  /** `_session`: the lease names the exact active canary session. */
  predicate SessionHolds(s: State, scope: string, session: Option<string>, expiresAt: int) {
    && session.Some? && session.value in s.sessions
    && var row := s.sessions[session.value];
    && row.active && row.scope == scope && s.now < expiresAt <= row.deadline
  }

  /** The latch agrees with the newest command and its audit event. */
  predicate AuditAgrees(s: State, l: Latch) {
    && 0 < l.version <= |s.log|
    && var row := s.log[l.version - 1];
    && row.sha == l.head && row.sha.EventHash? && row.sha.command == row.command && row.sha.version == l.version
    && row.command.expectedVersion + 1 == l.version && row.command.scope == l.scope
    && l.state == StateOf(row.command.action)
    && l.session == SessionOf(row.command.action) && l.expiresAt == ExpiryOf(row.command.action)
  }

  /** `_snapshot`. */
  function Snapshot(s: State, scope: string, active: bool): Result<Latch, Refusal> {
    if s.latch.None? then Err(Missing)
    else
      var l := s.latch.value;
      if l.scope != scope then Err(ScopeDiffers)
      else if !AuditAgrees(s, l) then Err(AuditInconsistent)
      else if active && (l.state != Armed || l.expiresAt.None? || s.now >= l.expiresAt.value) then Err(NotArmed)
      else if active && !SessionHolds(s, scope, l.session, l.expiresAt.value) then Err(SessionInactive)
      else Ok(l)
  }

  function FindCommand(log: seq<LogRow>, id: string): Option<Command> {
    if log == [] then None else if log[|log| - 1].command.id == id then Some(log[|log| - 1].command)
    else FindCommand(log[..|log| - 1], id)
  }

  function VersionOf(s: State): nat {
    if s.latch.Some? then s.latch.value.version else 0
  }

  /** `apply_command` inside its transaction. */
  function ApplyCommand(s: State, c: Command): (State, Result<Latch, Refusal>) {
    var seen := FindCommand(s.log, c.id);
    if seen.Some? then (s, if seen.value != c then Err(IdentityReused) else Snapshot(s, c.scope, false))
    else if VersionOf(s) != c.expectedVersion then (s, Err(Stale))
    else if s.latch.Some? && Snapshot(s, c.scope, false).Err? then (s, Snapshot(s, c.scope, false))
    else if c.action.Arm? && !SessionHolds(s, c.scope, Some(c.action.session), c.action.expiresAt) then (s, Err(SessionInactive))
    else
      var version := VersionOf(s) + 1;
      var sha := EventHash(c, version, s.now, if s.latch.Some? then s.latch.value.head else Zero);
      var scope := if s.latch.Some? then s.latch.value.scope else c.scope;
      var l := Latch(scope, version, StateOf(c.action), SessionOf(c.action), ExpiryOf(c.action), sha);
      (s.(log := s.log + [LogRow(c, s.now, sha)], latch := Some(l), trace := s.trace + [Commanded(version, c.action)]), Ok(l))
  }

  function Min(a: int, b: int): int {
    if a <= b then a else b
  }

  function AdmissionOf(l: Latch, scope: string, d: Decision): Admission
    requires l.session.Some? && l.expiresAt.Some?
  {
    Admission(scope, l.version, l.session.value, d, Min(l.expiresAt.value, Min(d.entryExpires, d.quoteExpires)))
  }

  /** `bind_decision` inside its transaction. */
  function BindDecision(s: State, d: Decision, scope: string, expectedVersion: nat): (State, Result<Admission, Refusal>) {
    if !d.cleared then (s, Err(NotCleared))
    else match Snapshot(s, scope, true)
    case Err(why) => (s, Err(why))
    case Ok(l) =>
      if l.version != expectedVersion then (s, Err(AuthorityChanged))
      else if l.session.None? || l.expiresAt.None? then (s, Err(NotArmed))
      else
        var a := AdmissionOf(l, scope, d);
        if d.id in s.admissions then (s, if s.admissions[d.id] != a then Err(OtherFence) else Ok(a))
        else (s.(admissions := s.admissions[d.id := a]), Ok(a))
  }

  /** `_check`: the stored admission still matches the latch, the decision and the clock. */
  function Check(s: State, d: Decision, scope: string): Result<Admission, Refusal> {
    if !d.cleared then Err(NotCleared)
    else match Snapshot(s, scope, true)
    case Err(why) => Err(why)
    case Ok(l) =>
      if d.id !in s.admissions then Err(NoAdmission)
      else
        var a := s.admissions[d.id];
        if a.version != l.version || Some(a.session) != l.session || a.scope != scope || a.decision != d
           || s.now >= a.expiresAt then Err(AdmissionMismatch)
        else Ok(a)
  }

  predicate AlreadyDispatched(s: State, d: Decision) {
    exists i :: 0 <= i < |s.claims| && (s.claims[i].effect == d.tradeId || s.claims[i].decisionId == d.id)
  }

  /** The claim transaction of `_final_dispatch_guard`. */
  function ClaimDispatch(s: State, d: Decision, scope: string): (State, Result<Admission, Refusal>) {
    match Check(s, d, scope)
    case Err(why) => (s, Err(why))
    case Ok(a) =>
      if d !in s.prepared then (s, Err(NotPrepared))
      else if AlreadyDispatched(s, d) then (s, Err(AlreadyClaimed))
      else (s.(claims := s.claims + [ClaimRow(d.tradeId, d.id, a.version)]), Ok(a))
  }

  /** Forget a guard; its connection gives back the lock if it still had it. */
  function Release(s: State, w: nat): State {
    s.(guards := s.guards - {w}, lock := if s.lock == Some(w) then None else s.lock)
  }

  datatype Step =
    | Tick(now: int)
    | SetSession(id: string, row: Session)
    | SetPrepared(decisions: set<Decision>)
    | Issue(command: Command)
    | Bind(decision: Decision, scope: string, expectedVersion: nat)
    | Acquire(worker: nat, decision: Decision, scope: string)
    | Claim(worker: nat)
    | Enter(worker: nat)
    | Leave(worker: nat)
    | Crash(worker: nat)
    | Disconnect(worker: nat)

  function AfterClaim(s: State, w: nat): State
    requires w in s.guards
  {
    var g := s.guards[w];
    var (t, r) := ClaimDispatch(s, g.decision, g.scope);
    if r.Err? then Release(s, w) else t.(guards := t.guards[w := g.(pc := Claimed, admission := Some(r.value))])
  }

  function AfterEnter(s: State, w: nat): State
    requires w in s.guards && s.guards[w].admission.Some?
  {
    var g := s.guards[w];
    if s.now >= g.admission.value.expiresAt then Release(s, w)
    else
      s.(guards := s.guards[w := g.(pc := Inside)],
         trace := s.trace + [Entered(w, g.decision.tradeId, g.decision.id, g.admission.value.version)])
  }

  /** One atomic step; a step that cannot be taken changes nothing.  A guard whose connection is
      gone gets an error from its next statement and ends. */
  function Next(s: State, step: Step): State {
    match step
    case Tick(now) => if s.now <= now then s.(now := now) else s
    case SetSession(id, row) => s.(sessions := s.sessions[id := row])
    case SetPrepared(decisions) => s.(prepared := decisions)
    case Issue(c) => if s.lock.None? then ApplyCommand(s, c).0 else s
    case Bind(d, scope, version) => if s.lock.None? then BindDecision(s, d, scope, version).0 else s
    case Acquire(w, d, scope) =>
      if s.lock.Some? || w in s.guards then s
      else s.(lock := Some(w), guards := s.guards[w := Guard(d, scope, Locked, None, true)])
    case Claim(w) =>
      if w !in s.guards || s.guards[w].pc != Locked then s
      else if !s.guards[w].connected then Release(s, w)
      else AfterClaim(s, w)
    case Enter(w) =>
      if w !in s.guards || s.guards[w].pc != Claimed || s.guards[w].admission.None? then s
      else if !s.guards[w].connected then Release(s, w)
      else AfterEnter(s, w)
    case Leave(w) => if w in s.guards && s.guards[w].pc == Inside then Release(s, w) else s
    case Crash(w) => if w in s.guards then Release(s, w) else s
    case Disconnect(w) =>
      if w !in s.guards then s
      else s.(guards := s.guards[w := s.guards[w].(connected := false)], lock := if s.lock == Some(w) then None else s.lock)
  }

  function Run(s: State, steps: seq<Step>): State
    decreases |steps|
  {
    if steps == [] then s else Run(Next(s, steps[0]), steps[1..])
  }

  ghost predicate Initial(s: State) {
    && s.latch.None? && s.log == [] && s.admissions == map[] && s.claims == [] && s.lock.None?
    && s.guards == map[] && s.trace == []
  }
}
