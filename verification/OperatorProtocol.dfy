/** Operator commands linearise with venue dispatch (operator_control.py). */
module OperatorProtocol {
  import opened Common
  import opened OperatorState

  // ---- The invariant --------------------------------------------------------------------

  /** The lock is held exactly by the one connected guard. */
  ghost predicate LockOk(s: State) {
    && (s.lock.Some? ==> s.lock.value in s.guards && s.guards[s.lock.value].connected)
    && (forall w :: w in s.guards && s.guards[w].connected ==> s.lock == Some(w))
  }

  /** The command log is a hash chain of consecutively fenced commands with distinct ids. */
  ghost predicate LogOk(log: seq<LogRow>) {
    && (forall i :: 0 <= i < |log| ==> LogRowOk(log, i))
    && (forall i, j :: 0 <= i < j < |log| ==> log[i].command.id != log[j].command.id)
  }

  ghost predicate LogRowOk(log: seq<LogRow>, i: nat)
    requires i < |log|
  {
    && log[i].command.expectedVersion == i
    && log[i].command.scope == log[0].command.scope
    && log[i].sha == EventHash(log[i].command, i + 1, log[i].observedAt, if i == 0 then Zero else log[i - 1].sha)
  }

  /** The latch is what the newest logged command says. */
  ghost predicate LatchOk(s: State) {
    if s.log == [] then s.latch.None?
    else
      var row := s.log[|s.log| - 1];
      s.latch == Some(Latch(row.command.scope, |s.log|, StateOf(row.command.action), SessionOf(row.command.action),
                            ExpiryOf(row.command.action), row.sha))
  }

  ghost predicate ClaimsOk(s: State) {
    && (forall i, j :: 0 <= i < j < |s.claims| ==>
          s.claims[i].effect != s.claims[j].effect && s.claims[i].decisionId != s.claims[j].decisionId)
    && (forall i :: 0 <= i < |s.claims| ==> ClaimAdmitted(s, s.claims[i]))
    && (forall id :: id in s.admissions ==> s.admissions[id].decision.id == id)
  }

  ghost predicate ClaimAdmitted(s: State, c: ClaimRow) {
    && c.decisionId in s.admissions && s.admissions[c.decisionId].version == c.version
    && s.admissions[c.decisionId].decision.tradeId == c.effect
  }

  ghost predicate HasClaim(s: State, c: ClaimRow) {
    exists i :: 0 <= i < |s.claims| && s.claims[i] == c
  }

  ghost predicate WasEntered(s: State, effect: string) {
    exists i :: 0 <= i < |s.trace| && s.trace[i].Entered? && s.trace[i].effect == effect
  }

  /** A guard past its claim owns that claim; while connected, the latch has not moved. */
  ghost predicate GuardOk(s: State, w: nat)
    requires w in s.guards
  {
    var g := s.guards[w];
    g.pc != Locked ==>
      && g.admission.Some?
      && HasClaim(s, ClaimRow(g.decision.tradeId, g.decision.id, g.admission.value.version))
      && (g.connected ==> s.latch.Some? && s.latch.value.state == Armed && s.latch.value.version == g.admission.value.version)
      && (g.pc == Claimed ==> !WasEntered(s, g.decision.tradeId))
  }

  ghost predicate GuardsOk(s: State) {
    && (forall w :: w in s.guards ==> GuardOk(s, w))
    && (forall v, w :: v in s.guards && w in s.guards && v != w && s.guards[v].pc != Locked && s.guards[w].pc != Locked ==>
          s.guards[v].decision.tradeId != s.guards[w].decision.tradeId)
  }

  /** The newest command in a trace. */
  ghost function LastCommand(trace: seq<Event>): (last: Option<Event>)
    ensures last.Some? ==> last.value.Commanded?
  {
    if trace == [] then None
    else if trace[|trace| - 1].Commanded? then Some(trace[|trace| - 1])
    else LastCommand(trace[..|trace| - 1])
  }

  /** Event `i` is explained by the events before it: a command bumps the version by one, and a
      dispatch runs under an ARM at exactly its admitted version. */
  ghost predicate EventOk(trace: seq<Event>, i: nat)
    requires i < |trace|
  {
    var last := LastCommand(trace[..i]);
    match trace[i]
    case Commanded(version, _) => version == (if last.Some? then last.value.version else 0) + 1
    case Entered(_, _, _, version) => last.Some? && last.value.version == version && last.value.action.Arm?
  }

  ghost predicate Linear(trace: seq<Event>) {
    && (forall i :: 0 <= i < |trace| ==> EventOk(trace, i))
    && (forall i, j :: 0 <= i < j < |trace| && trace[i].Entered? && trace[j].Entered? ==>
          trace[i].effect != trace[j].effect && trace[i].decisionId != trace[j].decisionId)
  }

  ghost predicate TraceOk(s: State) {
    && Linear(s.trace)
    && (forall i :: 0 <= i < |s.trace| && s.trace[i].Entered? ==>
          HasClaim(s, ClaimRow(s.trace[i].effect, s.trace[i].decisionId, s.trace[i].version)))
    && match LastCommand(s.trace)
       case None => s.log == []
       case Some(c) => c.version == |s.log| && |s.log| > 0 && c.action == s.log[|s.log| - 1].command.action
  }

  ghost predicate Inv(s: State) {
    LockOk(s) && LogOk(s.log) && LatchOk(s) && ClaimsOk(s) && GuardsOk(s) && TraceOk(s)
  }

  // ---- Traces ---------------------------------------------------------------------------

  lemma LastCommandSnoc(trace: seq<Event>, e: Event)
    ensures LastCommand(trace + [e]) == if e.Commanded? then Some(e) else LastCommand(trace)
  {
    assert (trace + [e])[..|trace|] == trace;
  }

  lemma LinearSnoc(trace: seq<Event>, e: Event)
    requires Linear(trace)
    requires var last := LastCommand(trace);
             match e
             case Commanded(version, _) => version == (if last.Some? then last.value.version else 0) + 1
             case Entered(_, effect, decisionId, version) =>
               && last.Some? && last.value.version == version && last.value.action.Arm?
               && forall i :: 0 <= i < |trace| && trace[i].Entered? ==> trace[i].effect != effect && trace[i].decisionId != decisionId
    ensures Linear(trace + [e])
  {
    var longer := trace + [e];
    forall i | 0 <= i < |longer|
      ensures EventOk(longer, i)
    {
      if i < |trace| {
        assert longer[..i] == trace[..i] && EventOk(trace, i);
      } else {
        assert longer[..i] == trace;
      }
    }
  }

  // ---- Steps keep the invariant ---------------------------------------------------------

  /** Nothing a guard depends on moved, except guards that ended or lost their connection. */
  lemma InvPassive(s: State, t: State)
    requires Inv(s) && LockOk(t)
    requires t.latch == s.latch && t.log == s.log && t.admissions == s.admissions && t.claims == s.claims && t.trace == s.trace
    requires forall w :: w in t.guards ==> w in s.guards && (t.guards[w] == s.guards[w] || t.guards[w] == s.guards[w].(connected := false))
    ensures Inv(t)
  {
    forall w | w in t.guards
      ensures GuardOk(t, w)
    {
      assert GuardOk(s, w);
      assert t.guards[w].pc != Locked ==> HasClaim(t, ClaimRow(t.guards[w].decision.tradeId, t.guards[w].decision.id, t.guards[w].admission.value.version));
    }
    assert forall c :: ClaimAdmitted(t, c) <==> ClaimAdmitted(s, c);
    assert forall c :: HasClaim(t, c) <==> HasClaim(s, c);
  }

  lemma InvRelease(s: State, w: nat)
    requires Inv(s) && w in s.guards
    ensures Inv(Release(s, w))
  {
    InvPassive(s, Release(s, w));
  }

  lemma InvDisconnect(s: State, w: nat)
    requires Inv(s) && w in s.guards
    ensures Inv(Next(s, Disconnect(w)))
  {
    InvPassive(s, Next(s, Disconnect(w)));
  }

  lemma InvAcquire(s: State, w: nat, d: Decision, scope: string)
    requires Inv(s) && s.lock.None? && w !in s.guards
    ensures Inv(Next(s, Acquire(w, d, scope)))
  {
    var t := Next(s, Acquire(w, d, scope));
    forall v | v in t.guards
      ensures GuardOk(t, v)
    {
      if v != w {
        assert GuardOk(s, v) && t.guards[v] == s.guards[v];
        assert forall c :: HasClaim(t, c) <==> HasClaim(s, c);
      }
    }
    assert forall c :: ClaimAdmitted(t, c) <==> ClaimAdmitted(s, c);
    assert forall c :: HasClaim(t, c) <==> HasClaim(s, c);
  }

  lemma InvBind(s: State, d: Decision, scope: string, version: nat)
    requires Inv(s)
    ensures Inv(BindDecision(s, d, scope, version).0)
  {
    var t := BindDecision(s, d, scope, version).0;
    assert forall i :: 0 <= i < |s.claims| ==> ClaimAdmitted(s, s.claims[i]);
    assert forall c :: HasClaim(t, c) <==> HasClaim(s, c);
    forall w | w in t.guards
      ensures GuardOk(t, w)
    {
      assert GuardOk(s, w);
    }
  }

  lemma {:induction false} FindCommandIff(log: seq<LogRow>, id: string)
    ensures FindCommand(log, id).None? <==> forall i :: 0 <= i < |log| ==> log[i].command.id != id
    decreases |log|
  {
    if log != [] {
      FindCommandIff(log[..|log| - 1], id);
    }
  }

  lemma LogSnoc(log: seq<LogRow>, c: Command, observedAt: int)
    requires LogOk(log) && FindCommand(log, c.id).None? && c.expectedVersion == |log|
    requires log != [] ==> c.scope == log[0].command.scope
    ensures LogOk(log + [LogRow(c, observedAt, EventHash(c, |log| + 1, observedAt, if log == [] then Zero else log[|log| - 1].sha))])
  {
    FindCommandIff(log, c.id);
    var longer := log + [LogRow(c, observedAt, EventHash(c, |log| + 1, observedAt, if log == [] then Zero else log[|log| - 1].sha))];
    forall i | 0 <= i < |longer|
      ensures LogRowOk(longer, i)
    {
      assert i < |log| ==> LogRowOk(log, i);
    }
  }

  /** In every reachable state the latch passes its own audit. */
  lemma LatchPassesAudit(s: State)
    requires LogOk(s.log) && LatchOk(s) && s.latch.Some?
    ensures AuditAgrees(s, s.latch.value)
  {
    assert LogRowOk(s.log, |s.log| - 1);
  }

  /** Nobody holds a live connection, and nobody's claim or entry is touched by a command. */
  lemma CommandKeepsGuards(s: State, t: State, e: Event)
    requires GuardsOk(s) && LockOk(s) && s.lock.None? && e.Commanded? && t.trace == s.trace + [e]
    requires t.guards == s.guards && t.claims == s.claims
    ensures GuardsOk(t)
  {
    assert forall a :: HasClaim(t, a) <==> HasClaim(s, a);
    forall w | w in t.guards
      ensures GuardOk(t, w)
    {
      assert GuardOk(s, w);
      if s.guards[w].pc == Claimed {
        CommandsEnterNothing(s, t, s.guards[w].decision.tradeId, e);
      }
    }
  }

  lemma CommandKeepsTrace(s: State, t: State, c: Command)
    requires TraceOk(s) && t.trace == s.trace + [Commanded(|s.log| + 1, c.action)] && t.claims == s.claims
    requires |t.log| == |s.log| + 1 && t.log[|s.log|].command == c
    ensures TraceOk(t)
  {
    var e := Commanded(|s.log| + 1, c.action);
    LastCommandSnoc(s.trace, e);
    LinearSnoc(s.trace, e);
    assert forall a :: HasClaim(t, a) <==> HasClaim(s, a);
  }

  /** A command that takes effect is appended to the log, the latch and the trace. */
  lemma CommandShape(s: State, c: Command)
    requires LogOk(s.log) && LatchOk(s) && ApplyCommand(s, c).0.log != s.log
    ensures FindCommand(s.log, c.id).None? && c.expectedVersion == |s.log| && (s.log != [] ==> c.scope == s.log[0].command.scope)
    ensures var sha := EventHash(c, |s.log| + 1, s.now, if s.log == [] then Zero else s.log[|s.log| - 1].sha);
            ApplyCommand(s, c).0
            == s.(log := s.log + [LogRow(c, s.now, sha)], trace := s.trace + [Commanded(|s.log| + 1, c.action)],
                  latch := Some(Latch(c.scope, |s.log| + 1, StateOf(c.action), SessionOf(c.action), ExpiryOf(c.action), sha)))
  {
    if s.log != [] {
      assert LogRowOk(s.log, |s.log| - 1);
    }
  }

  lemma UnappliedCommand(s: State, c: Command)
    requires ApplyCommand(s, c).0.log == s.log
    ensures ApplyCommand(s, c).0 == s
  {
  }

  lemma InvIssue(s: State, c: Command)
    requires Inv(s) && s.lock.None?
    ensures Inv(ApplyCommand(s, c).0)
  {
    var t := ApplyCommand(s, c).0;
    if t.log == s.log {
      UnappliedCommand(s, c);
    } else {
      CommandShape(s, c);
      LogSnoc(s.log, c, s.now);
      CommandKeepsTrace(s, t, c);
      CommandKeepsGuards(s, t, Commanded(|s.log| + 1, c.action));
      assert forall a :: ClaimAdmitted(t, a) <==> ClaimAdmitted(s, a);
    }
  }

  lemma CommandsEnterNothing(s: State, t: State, effect: string, e: Event)
    requires t.trace == s.trace + [e] && e.Commanded? && !WasEntered(s, effect)
    ensures !WasEntered(t, effect)
  {
  }

  lemma SameClaim(s: State, a: ClaimRow, b: ClaimRow)
    requires ClaimsOk(s) && HasClaim(s, a) && HasClaim(s, b)
    ensures a.effect == b.effect || a.decisionId == b.decisionId ==> a == b
  {
  }

  lemma InvClaim(s: State, w: nat)
    requires Inv(s) && w in s.guards && s.guards[w].pc == Locked && s.guards[w].connected
    requires ClaimDispatch(s, s.guards[w].decision, s.guards[w].scope).1.Ok?
    ensures Inv(AfterClaim(s, w))
  {
    var g := s.guards[w];
    var row := ClaimRow(g.decision.tradeId, g.decision.id, ClaimDispatch(s, g.decision, g.scope).1.value.version);
    var t := AfterClaim(s, w);
    assert t.claims == s.claims + [row];
    forall c | HasClaim(s, c)
      ensures HasClaim(t, c) && c.effect != row.effect
    {
      var i :| 0 <= i < |s.claims| && s.claims[i] == c;
      assert t.claims[i] == c;
    }
    assert t.claims[|s.claims|] == row;
    forall i | 0 <= i < |t.claims|
      ensures ClaimAdmitted(t, t.claims[i])
    {
      assert i < |s.claims| ==> ClaimAdmitted(s, s.claims[i]);
    }
    forall v | v in t.guards
      ensures GuardOk(t, v)
    {
      assert GuardOk(s, v);
    }
  }

  lemma InvEnter(s: State, w: nat)
    requires Inv(s) && w in s.guards && s.guards[w].pc == Claimed && s.guards[w].connected && s.guards[w].admission.Some?
    requires s.now < s.guards[w].admission.value.expiresAt
    ensures Inv(AfterEnter(s, w))
  {
    assert GuardOk(s, w);
    var g := s.guards[w];
    var row := ClaimRow(g.decision.tradeId, g.decision.id, g.admission.value.version);
    var e := Entered(w, row.effect, row.decisionId, row.version);
    var t := AfterEnter(s, w);
    forall i | 0 <= i < |s.trace| && s.trace[i].Entered?
      ensures s.trace[i].effect != row.effect && s.trace[i].decisionId != row.decisionId
    {
      SameClaim(s, row, ClaimRow(s.trace[i].effect, s.trace[i].decisionId, s.trace[i].version));
    }
    LinearSnoc(s.trace, e);
    LastCommandSnoc(s.trace, e);
    assert forall c :: HasClaim(t, c) <==> HasClaim(s, c);
    assert forall c :: ClaimAdmitted(t, c) <==> ClaimAdmitted(s, c);
    forall v | v in t.guards
      ensures GuardOk(t, v)
    {
      assert GuardOk(s, v);
    }
  }

  lemma InvClaimStep(s: State, w: nat)
    requires Inv(s) && w in s.guards && s.guards[w].pc == Locked
    ensures Inv(Next(s, Claim(w)))
  {
    if s.guards[w].connected && ClaimDispatch(s, s.guards[w].decision, s.guards[w].scope).1.Ok? {
      InvClaim(s, w);
    } else {
      InvRelease(s, w);
    }
  }

  lemma InvEnterStep(s: State, w: nat)
    requires Inv(s) && w in s.guards && s.guards[w].pc == Claimed && s.guards[w].admission.Some?
    ensures Inv(Next(s, Enter(w)))
  {
    if s.guards[w].connected && s.now < s.guards[w].admission.value.expiresAt {
      InvEnter(s, w);
    } else {
      InvRelease(s, w);
    }
  }

  /** The clock, the sessions and the preparations are nobody's in the protocol. */
  lemma InvElsewhere(s: State, step: Step)
    requires Inv(s) && (step.Tick? || step.SetSession? || step.SetPrepared?)
    ensures Inv(Next(s, step))
  {
    InvPassive(s, Next(s, step));
  }

  lemma InvGuardStep(s: State, step: Step)
    requires Inv(s) && (step.Claim? || step.Enter? || step.Leave? || step.Crash? || step.Disconnect?)
    ensures Inv(Next(s, step))
  {
    match step
    case Claim(w) => if w in s.guards && s.guards[w].pc == Locked { InvClaimStep(s, w); }
    case Enter(w) => if w in s.guards && s.guards[w].pc == Claimed && s.guards[w].admission.Some? { InvEnterStep(s, w); }
    case Leave(w) => if w in s.guards { InvRelease(s, w); }
    case Crash(w) => if w in s.guards { InvRelease(s, w); }
    case Disconnect(w) => if w in s.guards { InvDisconnect(s, w); }
    case _ =>
  }

  lemma InvStep(s: State, step: Step)
    requires Inv(s)
    ensures Inv(Next(s, step))
  {
    match step
    case Issue(c) => if s.lock.None? { InvIssue(s, c); }
    case Bind(d, scope, version) => InvBind(s, d, scope, version);
    case Acquire(w, d, scope) => if s.lock.None? && w !in s.guards { InvAcquire(s, w, d, scope); }
    case Tick(_) => InvElsewhere(s, step);
    case SetSession(_, _) => InvElsewhere(s, step);
    case SetPrepared(_) => InvElsewhere(s, step);
    case _ => InvGuardStep(s, step);
  }

  lemma {:induction false} InvRun(s: State, steps: seq<Step>)
    requires Inv(s)
    ensures Inv(Run(s, steps))
    decreases |steps|
  {
    if steps != [] {
      InvStep(s, steps[0]);
      InvRun(Next(s, steps[0]), steps[1..]);
    }
  }

  // ---- The guarantees -------------------------------------------------------------------

  /** The whole history of commands and dispatches is one linear order: versions count commands,
      every dispatch runs under an ARM at exactly the version its decision was admitted at, and
      no effect or decision is dispatched twice, whatever crashes or lost connections occur. */
  lemma DispatchesLinearize(s: State, steps: seq<Step>)
    requires Initial(s)
    ensures Linear(Run(s, steps).trace)
    ensures var t := Run(s, steps);
            forall i :: 0 <= i < |t.trace| && t.trace[i].Entered? ==>
              t.trace[i].decisionId in t.admissions && t.admissions[t.trace[i].decisionId].version == t.trace[i].version
  {
    InvRun(s, steps);
    var t := Run(s, steps);
    forall i | 0 <= i < |t.trace| && t.trace[i].Entered?
      ensures t.trace[i].decisionId in t.admissions && t.admissions[t.trace[i].decisionId].version == t.trace[i].version
    {
      var c := ClaimRow(t.trace[i].effect, t.trace[i].decisionId, t.trace[i].version);
      assert HasClaim(t, c) && ClaimAdmitted(t, c);
    }
  }

  lemma {:induction false} VersionsRise(trace: seq<Event>, i: nat, j: nat)
    requires Linear(trace) && i < j <= |trace| && trace[i].Commanded?
    ensures LastCommand(trace[..j]).Some? && LastCommand(trace[..j]).value.version >= trace[i].version
    ensures LastCommand(trace[..j]).value.version == trace[i].version ==> LastCommand(trace[..j]).value == trace[i]
    decreases j
  {
    assert trace[..j] == trace[..j - 1] + [trace[j - 1]];
    LastCommandSnoc(trace[..j - 1], trace[j - 1]);
    assert EventOk(trace, j - 1);
    if i < j - 1 {
      VersionsRise(trace, i, j - 1);
    }
  }

  /** After a KILL or DISARM, whatever was admitted before it never dispatches again. */
  lemma StopEndsOldAuthority(trace: seq<Event>, i: nat, j: nat)
    requires Linear(trace) && i < j < |trace| && trace[i].Commanded? && !trace[i].action.Arm? && trace[j].Entered?
    ensures trace[j].version > trace[i].version
  {
    VersionsRise(trace, i, j);
    assert EventOk(trace, j);
  }

  /** What `apply_command` asks of a command besides the lock: a new id, the next version, the latch's
      scope, and for an ARM its active session. */
  ghost predicate Acceptable(s: State, c: Command) {
    && FindCommand(s.log, c.id).None? && c.expectedVersion == |s.log|
    && (s.log != [] ==> c.scope == s.log[0].command.scope)
    && (c.action.Arm? ==> SessionHolds(s, c.scope, Some(c.action.session), c.action.expiresAt))
  }

  ghost predicate NobodyConnected(s: State) {
    forall w :: w in s.guards ==> !s.guards[w].connected
  }

  lemma LockIsFreeIff(s: State)
    requires LockOk(s)
    ensures s.lock.None? <==> NobodyConnected(s)
  {
  }

  /** Free of the lock, the transaction logs a command exactly if it is acceptable. */
  lemma AppliedIff(s: State, c: Command)
    requires LogOk(s.log) && LatchOk(s)
    ensures ApplyCommand(s, c).0.trace != s.trace <==> Acceptable(s, c)
  {
    if s.log != [] {
      LatchPassesAudit(s);
      assert LogRowOk(s.log, |s.log| - 1);
    }
  }

  /** A command commits exactly when it is acceptable and no guard holds a live connection: the only
      venue callbacks it can overtake are those whose own connection was lost, and it does overtake
      them. */
  lemma CommandsExcludeDispatch(s: State, steps: seq<Step>, c: Command)
    requires Initial(s)
    ensures var t := Run(s, steps);
            Next(t, Issue(c)).trace != t.trace <==> NobodyConnected(t) && Acceptable(t, c)
  {
    InvRun(s, steps);
    LockIsFreeIff(Run(s, steps));
    AppliedIff(Run(s, steps), c);
  }

  ghost predicate SomebodyInside(s: State) {
    exists w :: w in s.guards && s.guards[w].pc == Inside
  }

  ghost predicate NoDisconnect(steps: seq<Step>) {
    forall i :: 0 <= i < |steps| ==> !steps[i].Disconnect?
  }

  lemma {:induction false} ConnectedWithoutLoss(s: State, steps: seq<Step>)
    requires NoDisconnect(steps) && forall w :: w in s.guards ==> s.guards[w].connected
    ensures forall w :: w in Run(s, steps).guards ==> Run(s, steps).guards[w].connected
    decreases |steps|
  {
    if steps != [] {
      ConnectedWithoutLoss(Next(s, steps[0]), steps[1..]);
    }
  }

  /** Without lost connections, no venue callback is inside the guard when a command commits. */
  lemma NobodyInsideAtCommit(s: State, steps: seq<Step>, c: Command)
    requires Initial(s) && NoDisconnect(steps) && Next(Run(s, steps), Issue(c)).trace != Run(s, steps).trace
    ensures !SomebodyInside(Run(s, steps))
  {
    CommandsExcludeDispatch(s, steps, c);
    ConnectedWithoutLoss(s, steps);
  }

  /** A command id has one meaning and is never applied twice: its repetition only observes. */
  lemma RepeatedCommandOnlyObserves(s: State, c: Command)
    requires LogOk(s.log) && FindCommand(s.log, c.id).Some?
    ensures ApplyCommand(s, c).0 == s
    ensures ApplyCommand(s, c).1.Ok? ==> FindCommand(s.log, c.id) == Some(c)
  {
  }
}
