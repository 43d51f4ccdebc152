/** The operator repository as it runs: `apply_command`, `bind_decision` and the dispatch guard,
    with other processes moving in every gap the guard leaves.  Each method is proved to be a run
    of the operator protocol, so its guarantees hold under interference. */
module OperatorRepository {
  import opened Common
  import opened OperatorState
  import opened OperatorProtocol

  // ---- Interference ---------------------------------------------------------------------

  /** Anybody else's step.  Losing the connection of guard `me` is something that happens to it. */
  predicate Foreign(step: Step, me: nat) {
    match step
    case Acquire(w, _, _) => w != me
    case Claim(w) => w != me
    case Enter(w) => w != me
    case Leave(w) => w != me
    case Crash(w) => w != me
    case _ => true
  }

  predicate AllForeign(steps: seq<Step>, me: nat) {
    forall i :: 0 <= i < |steps| ==> Foreign(steps[i], me)
  }

  /** How often guard `me` ran venue code. */
  function Entries(trace: seq<Event>, me: nat): nat {
    if trace == [] then 0
    else Entries(trace[..|trace| - 1], me) + (if trace[|trace| - 1].Entered? && trace[|trace| - 1].worker == me then 1 else 0)
  }

  lemma EntriesSnoc(trace: seq<Event>, e: Event, me: nat)
    ensures Entries(trace + [e], me) == Entries(trace, me) + (if e.Entered? && e.worker == me then 1 else 0)
  {
    assert (trace + [e])[..|trace|] == trace;
  }

  /** `t` differs from `s` by what others did: my guard is where it was, connected or not. */
  ghost predicate Untouched(s: State, t: State, me: nat) {
    && (me in t.guards <==> me in s.guards)
    && (me in s.guards ==> t.guards[me] == s.guards[me] || t.guards[me] == s.guards[me].(connected := false))
    && Entries(t.trace, me) == Entries(s.trace, me)
    && s.trace <= t.trace
  }

  lemma ForeignStep(s: State, step: Step, me: nat)
    requires Foreign(step, me)
    ensures Untouched(s, Next(s, step), me)
  {
    match step
    case Issue(c) => CommandEntersNothing(s, c, me);
    case Enter(w) => if w in s.guards && s.guards[w].admission.Some? { OthersEnter(s, w, me); }
    case Claim(w) => if w in s.guards { OthersClaim(s, w, me); }
    case _ => EntersNothing(s, step, me);
  }

  lemma OthersClaim(s: State, w: nat, me: nat)
    requires w != me && w in s.guards
    ensures Untouched(s, AfterClaim(s, w), me)
  {
  }

  lemma EntersNothing(s: State, step: Step, me: nat)
    requires Foreign(step, me) && !step.Issue? && !step.Enter? && !step.Claim?
    ensures Untouched(s, Next(s, step), me)
  {
  }

  lemma CommandEntersNothing(s: State, c: Command, me: nat)
    ensures var t := ApplyCommand(s, c).0; t.guards == s.guards && Entries(t.trace, me) == Entries(s.trace, me) && s.trace <= t.trace
  {
    EntriesSnoc(s.trace, Commanded(VersionOf(s) + 1, c.action), me);
  }

  lemma OthersEnter(s: State, w: nat, me: nat)
    requires w != me && w in s.guards && s.guards[w].admission.Some?
    ensures Untouched(s, AfterEnter(s, w), me)
  {
    var g := s.guards[w];
    EntriesSnoc(s.trace, Entered(w, g.decision.tradeId, g.decision.id, g.admission.value.version), me);
  }

  lemma {:induction false} ForeignRun(s: State, steps: seq<Step>, me: nat)
    requires AllForeign(steps, me)
    ensures Untouched(s, Run(s, steps), me)
    decreases |steps|
  {
    if steps != [] {
      ForeignStep(s, steps[0], me);
      ForeignRun(Next(s, steps[0]), steps[1..], me);
    }
  }

  lemma {:induction false} RunAppend(s: State, a: seq<Step>, b: seq<Step>)
    ensures Run(s, a + b) == Run(Run(s, a), b)
    decreases |a|
  {
    if a == [] {
      assert a + b == b;
    } else {
      assert (a + b)[0] == a[0] && (a + b)[1..] == a[1..] + b;
      RunAppend(Next(s, a[0]), a[1..], b);
    }
  }

  lemma RunSnoc(s: State, a: seq<Step>, step: Step)
    ensures Run(s, a + [step]) == Next(Run(s, a), step)
  {
    RunAppend(s, a, [step]);
    assert [step][1..] == [];
  }

  /** My venue call, from its first instruction to the release of the lock. */
  lemma CallEnds(s: State, during: seq<Step>, me: nat)
    requires Inv(s) && me in s.guards && s.guards[me].pc == Inside && s.guards[me].admission.Some? && AllForeign(during, me)
    ensures var t := Release(Run(s, during), me);
            && t == Run(s, during + [Leave(me)]) && Inv(t)
            && Entries(t.trace, me) == Entries(s.trace, me) && s.trace <= t.trace
            && var d := s.guards[me].decision; HasClaim(t, ClaimRow(d.tradeId, d.id, s.guards[me].admission.value.version))
  {
    var mark := Run(s, during);
    ForeignRun(s, during, me);
    InvRun(s, during);
    InvStep(mark, Leave(me));
    RunSnoc(s, during, Leave(me));
    assert GuardOk(mark, me) && Release(mark, me).claims == mark.claims;
  }

  // ---- A lost connection ----------------------------------------------------------------

  const DECISION := Decision("d1", "t1", "body", true, 100, 100)
  const ARM := Command("c1", "scope", Arm("session", 50), 0, "ops")
  const KILL := Command("c2", "scope", Kill, 1, "ops")
  const DESK := State(0, None, [], map["session" := Session(true, "scope", 60)], map[], [], {DECISION}, None, map[], [])

  const HEAD := EventHash(ARM, 1, 0, Zero)
  const LATCH := Latch("scope", 1, Armed, Some("session"), Some(50), HEAD)

  lemma ArmAndBind()
    ensures var s := Next(Next(DESK, Issue(ARM)), Bind(DECISION, "scope", 1));
            s == DESK.(log := [LogRow(ARM, 0, HEAD)], latch := Some(LATCH), trace := [Commanded(1, ARM.action)],
                       admissions := map["d1" := Admission("scope", 1, "session", DECISION, 50)])
  {
    var s := Next(DESK, Issue(ARM));
    assert s.log == [LogRow(ARM, 0, HEAD)] && s.latch == Some(LATCH);
    assert Snapshot(s, "scope", true) == Ok(LATCH);
  }

  lemma ClaimAndEnter(s: State)
    requires s == DESK.(log := [LogRow(ARM, 0, HEAD)], latch := Some(LATCH), trace := [Commanded(1, ARM.action)],
                        admissions := map["d1" := Admission("scope", 1, "session", DECISION, 50)])
    ensures var t := Next(Next(Next(Next(s, Acquire(0, DECISION, "scope")), Claim(0)), Enter(0)), Disconnect(0));
            SomebodyInside(t) && t.lock.None? && t.log == s.log && t.latch == s.latch
  {
    var t := Next(s, Acquire(0, DECISION, "scope"));
    assert Snapshot(t, "scope", true) == Ok(LATCH);
    assert "d1" in t.admissions && DECISION in t.prepared && !AlreadyDispatched(t, DECISION);
    t := Next(t, Claim(0));
    assert t.guards[0].pc == Claimed;
    t := Next(t, Enter(0));
    assert t.guards[0].pc == Inside;
    t := Next(t, Disconnect(0));
    assert 0 in t.guards && t.guards[0].pc == Inside;
  }

  lemma KillCommits(s: State)
    requires s.lock.None? && s.log == [LogRow(ARM, 0, HEAD)] && s.latch == Some(LATCH)
    ensures Next(s, Issue(KILL)).trace == s.trace + [Commanded(2, Kill)]
  {
    assert FindCommand(s.log[..0], KILL.id).None? && FindCommand(s.log, KILL.id).None?;
    assert Snapshot(s, "scope", false) == Ok(LATCH);
  }

  /** The lock lives in the database session, so a KILL can commit while venue code is running
      once the guard's own connection is gone; `CommandsExcludeDispatch` says exactly when. */
  lemma LostConnectionAdmitsKill()
    ensures Initial(DESK)
    ensures exists steps :: SomebodyInside(Run(DESK, steps))
              && Next(Run(DESK, steps), Issue(KILL)).trace == Run(DESK, steps).trace + [Commanded(2, Kill)]
  {
    ArmAndBind();
    var s := Next(Next(DESK, Issue(ARM)), Bind(DECISION, "scope", 1));
    ClaimAndEnter(s);
    var t := Next(Next(Next(Next(s, Acquire(0, DECISION, "scope")), Claim(0)), Enter(0)), Disconnect(0));
    KillCommits(t);
    var steps := [];
    RunSnoc(DESK, steps, Issue(ARM));
    steps := steps + [Issue(ARM)];
    RunSnoc(DESK, steps, Bind(DECISION, "scope", 1));
    steps := steps + [Bind(DECISION, "scope", 1)];
    RunSnoc(DESK, steps, Acquire(0, DECISION, "scope"));
    steps := steps + [Acquire(0, DECISION, "scope")];
    RunSnoc(DESK, steps, Claim(0));
    steps := steps + [Claim(0)];
    RunSnoc(DESK, steps, Enter(0));
    steps := steps + [Enter(0)];
    RunSnoc(DESK, steps, Disconnect(0));
    steps := steps + [Disconnect(0)];
    assert Run(DESK, steps) == t;
  }

  // ---- The repository -------------------------------------------------------------------

  class OperatorControlRepository {
    var now: int
    var latch: Option<Latch>
    var log: seq<LogRow>
    var sessions: map<string, Session>
    var admissions: map<string, Admission>
    var claims: seq<ClaimRow>
    var prepared: set<Decision>
    var lock: Option<nat>
    var guards: map<nat, Guard>
    ghost var trace: seq<Event>

    ghost function View(): State
      reads this
    {
      State(now, latch, log, sessions, admissions, claims, prepared, lock, guards, trace)
    }

    ghost predicate Valid()
      reads this
    {
      Inv(View())
    }

    constructor (now: int)
      ensures Valid() && Initial(View()) && this.now == now
    {
      this.now := now;
      latch, log, sessions, admissions, claims, prepared := None, [], map[], map[], [], {};
      lock, guards, trace := None, map[], [];
    }

    function Stored(): State
      reads this
    {
      State(now, latch, log, sessions, admissions, claims, prepared, lock, guards, [])
    }

    /** `apply_command`, waiting for the advisory lock if a guard holds it. */
    method Apply(c: Command) returns (r: Result<Latch, Refusal>)
      requires Valid()
      modifies this
      ensures Valid() && View() == Next(old(View()), Issue(c))
      ensures r == if old(lock).Some? then Err(Busy) else ApplyCommand(old(View()), c).1
      ensures trace != old(trace) <==> NobodyConnected(old(View())) && Acceptable(old(View()), c)
    {
      InvStep(View(), Issue(c));
      LockIsFreeIff(View());
      AppliedIff(View(), c);
      if lock.Some? {
        return Err(Busy);
      }
      r := ApplyLocked(c);
    }

    /** The transaction of `apply_command` once it owns the lock. */
    method ApplyLocked(c: Command) returns (r: Result<Latch, Refusal>)
      modifies this
      ensures (View(), r) == ApplyCommand(old(View()), c)
      ensures guards == old(guards)
    {
      var seen := FindCommand(log, c.id);
      if seen.Some? {
        return if seen.value != c then Err(IdentityReused) else Snapshot(Stored(), c.scope, false);
      }
      var version := if latch.Some? then latch.value.version else 0;
      if version != c.expectedVersion {
        return Err(Stale);
      }
      var previous, scope := Zero, c.scope;
      if latch.Some? {
        var current := Snapshot(Stored(), c.scope, false);
        if current.Err? {
          return current;
        }
        previous, scope := latch.value.head, latch.value.scope;
      }
      if c.action.Arm? && !SessionHolds(Stored(), c.scope, Some(c.action.session), c.action.expiresAt) {
        return Err(SessionInactive);
      }
      Record(c, version + 1, scope, EventHash(c, version + 1, now, previous));
      r := Ok(latch.value);
    }

    /** Append the command row and upsert the latch row. */
    method Record(c: Command, version: nat, scope: string, sha: AuditDigest)
      modifies this
      ensures View() == old(View()).(log := old(log) + [LogRow(c, now, sha)],
                                     latch := Some(Latch(scope, version, StateOf(c.action), SessionOf(c.action), ExpiryOf(c.action), sha)),
                                     trace := old(trace) + [Commanded(version, c.action)])
    {
      log := log + [LogRow(c, now, sha)];
      latch := Some(Latch(scope, version, StateOf(c.action), SessionOf(c.action), ExpiryOf(c.action), sha));
      trace := trace + [Commanded(version, c.action)];
    }

    /** `bind_decision`. */
    method Admit(d: Decision, scope: string, expectedVersion: nat) returns (r: Result<Admission, Refusal>)
      requires Valid()
      modifies this
      ensures Valid() && View() == Next(old(View()), Bind(d, scope, expectedVersion))
      ensures r == if old(lock).Some? then Err(Busy) else BindDecision(old(View()), d, scope, expectedVersion).1
    {
      InvStep(View(), Bind(d, scope, expectedVersion));
      if lock.Some? {
        return Err(Busy);
      }
      r := AdmitLocked(d, scope, expectedVersion);
    }

    method AdmitLocked(d: Decision, scope: string, expectedVersion: nat) returns (r: Result<Admission, Refusal>)
      modifies this
      ensures (View(), r) == BindDecision(old(View()), d, scope, expectedVersion)
    {
      if !d.cleared {
        return Err(NotCleared);
      }
      var current := Snapshot(Stored(), scope, true);
      if current.Err? {
        return Err(current.error);
      }
      var l := current.value;
      if l.version != expectedVersion {
        return Err(AuthorityChanged);
      }
      if l.session.None? || l.expiresAt.None? {
        return Err(NotArmed);
      }
      var a := AdmissionOf(l, scope, d);
      if d.id in admissions {
        return if admissions[d.id] != a then Err(OtherFence) else Ok(a);
      }
      admissions := admissions[d.id := a];
      r := Ok(a);
    }

    /** One try for the session-level lock. */
    method TryLock(w: nat, d: Decision, scope: string) returns (locked: bool)
      modifies this
      ensures View() == Next(old(View()), Acquire(w, d, scope))
      ensures locked <==> old(lock).None? && w !in old(guards)
    {
      locked := lock.None? && w !in guards;
      if locked {
        lock, guards := Some(w), guards[w := Guard(d, scope, Locked, None, true)];
      }
    }

    method Unlock(w: nat)
      modifies this
      ensures View() == Release(old(View()), w)
    {
      guards := guards - {w};
      if lock == Some(w) {
        lock := None;
      }
    }

    /** The claim transaction, and the end of the guard if it is refused. */
    method CommitClaim(w: nat) returns (r: Result<Admission, Refusal>)
      requires w in guards && guards[w].pc == Locked
      modifies this
      ensures View() == Next(old(View()), Claim(w))
      ensures r == if old(guards)[w].connected then ClaimDispatch(old(View()), old(guards)[w].decision, old(guards)[w].scope).1
                   else Err(Disconnected)
      ensures r.Err? <==> w !in guards
    {
      var g := guards[w];
      if !g.connected {
        Unlock(w);
        return Err(Disconnected);
      }
      r := DecideClaim(g.decision, g.scope);
      if r.Err? {
        Unlock(w);
        return;
      }
      claims := claims + [ClaimRow(g.decision.tradeId, g.decision.id, r.value.version)];
      guards := guards[w := g.(pc := Claimed, admission := Some(r.value))];
    }

    /** The checks of the claim transaction, in its order. */
    method DecideClaim(d: Decision, scope: string) returns (r: Result<Admission, Refusal>)
      ensures r == ClaimDispatch(View(), d, scope).1
    {
      r := Check(Stored(), d, scope);
      if r.Ok? && d !in prepared {
        r := Err(NotPrepared);
      }
      if r.Ok? && AlreadyDispatched(Stored(), d) {
        r := Err(AlreadyClaimed);
      }
    }

    /** The clock recheck after the claim, and the entry into venue code. */
    method EnterCallback(w: nat) returns (r: Result<Admission, Refusal>)
      requires w in guards && guards[w].pc == Claimed && guards[w].admission.Some?
      modifies this
      ensures View() == Next(old(View()), Enter(w))
      ensures r.Err? <==> w !in guards
      ensures r.Ok? ==> r.value == old(guards)[w].admission.value
      ensures var g := old(guards)[w];
              r.Ok? ==> g.connected && now < r.value.expiresAt
                        && trace == old(trace) + [Entered(w, g.decision.tradeId, g.decision.id, r.value.version)]
      ensures r.Err? ==> trace == old(trace)
    {
      var g := guards[w];
      if !g.connected || now >= g.admission.value.expiresAt {
        Unlock(w);
        return Err(if g.connected then Expired else Disconnected);
      }
      guards := guards[w := g.(pc := Inside)];
      trace := trace + [Entered(w, g.decision.tradeId, g.decision.id, g.admission.value.version)];
      r := Ok(g.admission.value);
    }

    method Perform(step: Step)
      modifies this
      ensures View() == Next(old(View()), step)
    {
      match step
      case Tick(later) => now := if now <= later then later else now;
      case SetSession(id, row) => sessions := sessions[id := row];
      case SetPrepared(decisions) => prepared := decisions;
      case Issue(c) =>
        if lock.None? { var _ := ApplyLocked(c); }
      case Bind(d, scope, version) =>
        if lock.None? { var _ := AdmitLocked(d, scope, version); }
      case Acquire(w, d, scope) => var _ := TryLock(w, d, scope);
      case Claim(w) =>
        if w in guards && guards[w].pc == Locked { var _ := CommitClaim(w); }
      case Enter(w) =>
        if w in guards && guards[w].pc == Claimed && guards[w].admission.Some? { var _ := EnterCallback(w); }
      case Leave(w) =>
        if w in guards && guards[w].pc == Inside { Unlock(w); }
      case Crash(w) =>
        if w in guards { Unlock(w); }
      case Disconnect(w) =>
        if w in guards {
          guards := guards[w := guards[w].(connected := false)];
          lock := if lock == Some(w) then None else lock;
        }
    }

    /** What other processes do meanwhile. */
    method Others(steps: seq<Step>)
      requires Valid()
      modifies this
      ensures Valid() && View() == Run(old(View()), steps)
    {
      ghost var before := View();
      var done := 0;
      while done < |steps|
        invariant 0 <= done <= |steps|
        invariant Valid() && Run(View(), steps[done..]) == Run(before, steps)
      {
        assert steps[done..][1..] == steps[done + 1..];
        InvStep(View(), steps[done]);
        Perform(steps[done]);
        done := done + 1;
      }
    }

    /** `final_dispatch_guard` around one venue call.  `polls` is what the others do before each
        try for the lock; the guard gives up when they are used up. */
    method FinalDispatchGuard(me: nat, d: Decision, scope: string, polls: seq<seq<Step>>, beforeEnter: seq<Step>, during: seq<Step>)
      returns (r: Result<Admission, Refusal>, ghost steps: seq<Step>)
      requires Valid() && me !in guards
      requires forall i :: 0 <= i < |polls| ==> AllForeign(polls[i], me)
      requires AllForeign(beforeEnter, me) && AllForeign(during, me)
      modifies this
      ensures Valid() && View() == Run(old(View()), steps) && me !in guards
      ensures Entries(trace, me) == Entries(old(trace), me) + if r.Ok? then 1 else 0
      ensures r.Ok? ==> HasClaim(View(), ClaimRow(d.tradeId, d.id, r.value.version))
      ensures r.Ok? ==> WasEntered(View(), d.tradeId) && !WasEntered(old(View()), d.tradeId)
    {
      ghost var before, more := View(), [];
      var locked;
      locked, steps := WaitForLock(me, d, scope, polls);
      if !locked {
        return Err(Busy), steps;
      }
      r, more := ClaimStage(me, beforeEnter);
      RunAppend(before, steps, more);
      steps := steps + more;
      if r.Err? {
        return;
      }
      assert !WasEntered(before, d.tradeId);
      r, more := VenueStage(me, during);
      RunAppend(before, steps, more);
      steps := steps + more;
    }

    /** From the lock to the committed claim, and the gap after it. */
    method ClaimStage(me: nat, gap: seq<Step>) returns (r: Result<Admission, Refusal>, ghost steps: seq<Step>)
      requires Valid() && me in guards && guards[me].pc == Locked && AllForeign(gap, me)
      modifies this
      ensures Valid() && View() == Run(old(View()), steps)
      ensures Entries(trace, me) == Entries(old(trace), me) && old(trace) <= trace
      ensures if r.Err? then me !in guards
              else
                && me in guards && guards[me].pc == Claimed && guards[me].admission == Some(r.value)
                && guards[me].decision == old(guards)[me].decision && !WasEntered(View(), guards[me].decision.tradeId)
    {
      ghost var before := View();
      r := CommitClaim(me);
      InvStep(before, Claim(me));
      RunSnoc(before, [], Claim(me));
      steps := [] + [Claim(me)];
      if r.Err? {
        return;
      }
      OthersAround(me, gap);
      RunAppend(before, steps, gap);
      steps := steps + gap;
      assert GuardOk(View(), me);
    }

    /** Others take their steps while my guard stays where it is. */
    method OthersAround(me: nat, gap: seq<Step>)
      requires Valid() && AllForeign(gap, me)
      modifies this
      ensures Valid() && View() == Run(old(View()), gap) && Untouched(old(View()), View(), me)
    {
      ForeignRun(View(), gap, me);
      Others(gap);
    }

    /** The clock recheck, the venue code, and the release of the lock. */
    method VenueStage(me: nat, during: seq<Step>) returns (r: Result<Admission, Refusal>, ghost steps: seq<Step>)
      requires Valid() && me in guards && guards[me].pc == Claimed && guards[me].admission.Some? && AllForeign(during, me)
      modifies this
      ensures Valid() && View() == Run(old(View()), steps) && me !in guards
      ensures Entries(trace, me) == Entries(old(trace), me) + if r.Ok? then 1 else 0
      ensures var d := old(guards)[me].decision;
              r.Ok? ==> HasClaim(View(), ClaimRow(d.tradeId, d.id, r.value.version)) && WasEntered(View(), d.tradeId)
    {
      ghost var before, more := View(), [];
      r := EnterCallback(me);
      InvStep(before, Enter(me));
      RunSnoc(before, [], Enter(me));
      steps := [] + [Enter(me)];
      if r.Err? {
        return;
      }
      EntriesSnoc(before.trace, trace[|before.trace|], me);
      ghost var entered := trace;
      more := CallAndUnlock(me, during);
      RunAppend(before, steps, more);
      steps := steps + more;
      assert trace[|before.trace|] == entered[|before.trace|];
    }

    /** While the venue code runs others may move; then the lock is given back. */
    method CallAndUnlock(me: nat, during: seq<Step>) returns (ghost steps: seq<Step>)
      requires Valid() && me in guards && guards[me].pc == Inside && guards[me].admission.Some? && AllForeign(during, me)
      modifies this
      ensures Valid() && View() == Run(old(View()), steps) && me !in guards
      ensures Entries(trace, me) == Entries(old(trace), me) && old(trace) <= trace
      ensures var g := old(guards)[me];
              HasClaim(View(), ClaimRow(g.decision.tradeId, g.decision.id, g.admission.value.version))
    {
      ghost var before := View();
      Others(during);
      CallEnds(before, during, me);
      Unlock(me);
      steps := during + [Leave(me)];
    }

    /** Poll for the lock between other processes' steps. */
    method WaitForLock(me: nat, d: Decision, scope: string, polls: seq<seq<Step>>) returns (locked: bool, ghost steps: seq<Step>)
      requires Valid() && me !in guards
      requires forall i :: 0 <= i < |polls| ==> AllForeign(polls[i], me)
      modifies this
      ensures Valid() && View() == Run(old(View()), steps)
      ensures Entries(trace, me) == Entries(old(trace), me) && old(trace) <= trace
      ensures if locked then me in guards && guards[me] == Guard(d, scope, Locked, None, true) else me !in guards
    {
      ghost var before := View();
      var tried := 0;
      locked, steps := false, [];
      while !locked && tried < |polls|
        invariant 0 <= tried <= |polls|
        invariant Valid() && View() == Run(before, steps)
        invariant Entries(trace, me) == Entries(before.trace, me) && before.trace <= trace
        invariant if locked then me in guards && guards[me] == Guard(d, scope, Locked, None, true) else me !in guards
        decreases |polls| - tried
      {
        ghost var more: seq<Step>;
        locked, more := Poll(me, d, scope, polls[tried]);
        RunAppend(before, steps, more);
        steps := steps + more;
        tried := tried + 1;
      }
    }

    /** What the others do, and one try for the lock. */
    method Poll(me: nat, d: Decision, scope: string, others: seq<Step>) returns (locked: bool, ghost steps: seq<Step>)
      requires Valid() && me !in guards && AllForeign(others, me)
      modifies this
      ensures Valid() && View() == Run(old(View()), steps)
      ensures Entries(trace, me) == Entries(old(trace), me) && old(trace) <= trace
      ensures if locked then me in guards && guards[me] == Guard(d, scope, Locked, None, true) else me !in guards
    {
      ghost var before := View();
      Others(others);
      ForeignRun(before, others, me);
      ghost var mark := View();
      locked := TryLock(me, d, scope);
      InvStep(mark, Acquire(me, d, scope));
      RunSnoc(before, others, Acquire(me, d, scope));
      steps := others + [Acquire(me, d, scope)];
    }
  }
}
