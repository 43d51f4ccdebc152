/** The order of the sends themselves, and tables on which no run can disturb any order.

    `Ordered` asks more than rising sends: what was passed has to stay settled.  A revival of a passed
    row breaks that at once; the sends only fall if the revived row is then sent. */
module OutboxOrder {
  import opened Common
  import opened OutboxTable
  import opened OutboxProtocol
  import opened OutboxHistory

  // ---- Sends alone ------------------------------------------------------------------------

  /** Sends of one producer rise in row id. */
  ghost predicate SendsRise(sent: seq<Message>) {
    forall i, j :: 0 <= i < j < |sent| && sent[i].producer == sent[j].producer ==> sent[i].id < sent[j].id
  }

  ghost function PassedRevival(w: World, s: Step): set<nat> {
    if RevivesPassed(w, s) then {s.id} else {}
  }

  /** The rows a run revives after their producer has passed them. */
  ghost function PassedRevivals(w: World, steps: seq<Step>): set<nat>
    decreases |steps|
  {
    if steps == [] then {} else PassedRevival(w, steps[0]) + PassedRevivals(Next(w, steps[0]), steps[1..])
  }

  lemma MoreExcused(w: World, excused: set<nat>, more: set<nat>)
    requires OrderedBut(w, excused) && excused <= more
    ensures OrderedBut(w, more)
  {
  }

  /** Every step keeps the order once the row it revives is excused, if its producer had passed it. */
  lemma OrderedButStep(w: World, s: Step, excused: set<nat>)
    requires Safe(w) && OrderedBut(w, excused)
    ensures OrderedBut(Next(w, s), excused + PassedRevival(w, s))
  {
    MoreExcused(w, excused, excused + PassedRevival(w, s));
    if Revives(w, s) {
      OrderedRevival(w, s, excused + PassedRevival(w, s));
    } else {
      OrderedStep(w, s, excused + PassedRevival(w, s));
    }
  }

  lemma {:induction false} OrderedButRun(w: World, steps: seq<Step>, excused: set<nat>)
    requires Safe(w) && OrderedBut(w, excused)
    ensures OrderedBut(Run(w, steps), excused + PassedRevivals(w, steps))
    decreases |steps|
  {
    if steps == [] {
      MoreExcused(w, excused, excused + PassedRevivals(w, steps));
    } else {
      var now := excused + PassedRevival(w, steps[0]);
      SafeStep(w, steps[0]);
      OrderedButStep(w, steps[0], excused);
      OrderedButRun(Next(w, steps[0]), steps[1..], now);
      assert now + PassedRevivals(Next(w, steps[0]), steps[1..]) == excused + PassedRevivals(w, steps);
    }
  }

  /** A row sent behind a later row of its producer was revived after that producer had passed it,
      whatever legacy table the run began with. */
  lemma LateSendsWereRevived(w: World, steps: seq<Step>, i: nat, j: nat)
    requires Initial(w) && i < j < |Run(w, steps).sent|
    requires var sent := Run(w, steps).sent; sent[i].producer == sent[j].producer && sent[j].id < sent[i].id
    ensures Run(w, steps).sent[j].id in PassedRevivals(w, steps)
  {
    OrderedButRun(w, steps, {});
    assert {} + PassedRevivals(w, steps) == PassedRevivals(w, steps);
  }

  /** The sends of a run rise exactly when none of the rows it revived so is sent behind a later one. */
  lemma SendsRiseIff(w: World, steps: seq<Step>)
    requires Initial(w)
    ensures var sent := Run(w, steps).sent;
            SendsRise(sent) <==>
            forall i, j :: 0 <= i < j < |sent| && sent[i].producer == sent[j].producer && sent[j].id in PassedRevivals(w, steps) ==>
              sent[i].id < sent[j].id
  {
    OrderedButRun(w, steps, {});
    assert {} + PassedRevivals(w, steps) == PassedRevivals(w, steps);
  }

  /** A passed row revived and not sent again: the order is broken, the sends still rise. */
  lemma RevivalAloneSendsNothing()
    ensures var v := Run(LEGACY, REVIVAL[..3]); !Ordered(v) && SendsRise(v.sent)
  {
    var w3 := RevivalHalf();
    UnrollThree(LEGACY, REVIVAL[..3]);
    OneSendBehind(w3);
  }

  lemma OneSendBehind(w: World)
    requires w.sent == [Message(2, "p", "topic", DOC2)] && 1 in w.t.rows && w.t.rows[1].producer == "p" && !Settled(w.t.rows[1])
    ensures !Ordered(w) && SendsRise(w.sent)
  {
    assert !PrefixSettled(w.t, w.sent[0].producer, w.sent[0].id, {});
  }

  lemma UnrollThree(w: World, s: seq<Step>)
    requires |s| == 3
    ensures Run(w, s) == Next(Next(Next(w, s[0]), s[1]), s[2])
  {
    assert s == [s[0]] + s[1..] && s[1..] == [s[1]] + s[2..] && s[2..] == [s[2]] + [];
    RunOne(w, s[0], s[1..]);
    RunOne(Next(w, s[0]), s[1], s[2..]);
    RunOne(Next(Next(w, s[0]), s[1]), s[2], []);
  }

  // ---- Tables on which no order can break ---------------------------------------------------

  predicate LeasedDeadLetter(t: Table, id: nat) {
    id in t.rows && t.rows[id].state == Clear && t.rows[id].publishedAt.None? && t.rows[id].deadLetteredAt.Some?
    && t.rows[id].leaseOwner.Some?
  }

  /** A row left PUBLISHING by a process that is gone: nothing can claim, finish or settle it. */
  ghost predicate Abandoned(w: World, id: nat) {
    && id in w.t.rows && w.t.rows[id].state == Publishing && !Settled(w.t.rows[id])
    && forall k :: k in w.held ==> w.held[k].claim.id != id
  }

  lemma AbandonedStays(w: World, s: Step, id: nat)
    requires Safe(w) && Abandoned(w, id)
    ensures Abandoned(Next(w, s), id) && Next(w, s).t.rows[id].producer == w.t.rows[id].producer
  {
    StepEvolves(w, s);
    assert id !in Touched(w, s);
    assert Frozen(w.t.rows[id], Next(w, s).t.rows[id]);
    NobodyTakes(w, s, id);
  }

  lemma NobodyTakes(w: World, s: Step, id: nat)
    requires id in w.t.rows && w.t.rows[id].state != Clear && forall k :: k in w.held ==> w.held[k].claim.id != id
    ensures forall k :: k in Next(w, s).held ==> Next(w, s).held[k].claim.id != id
  {
  }

  lemma LeasedDeadLettersAreOld(w: World, s: Step, id: nat)
    requires TableOk(w.t) && LeasedDeadLetter(Next(w, s).t, id)
    ensures LeasedDeadLetter(w.t, id) && w.t.rows[id].producer == Next(w, s).t.rows[id].producer
  {
    StepEvolves(w, s);
    if s.Fail? {
      FailLeavesNoLease(w.t, s.id, s.worker, s.error, s.retryAfter, s.maxAttempts, id);
    } else if s.Publish? {
      assert id in w.t.rows;
    } else {
      ClearRowsStandStill(w, s, id);
    }
  }

  lemma FailLeavesNoLease(t: Table, id: nat, worker: string, error: string, retryAfter: int, maxAttempts: nat, k: nat)
    requires LeasedDeadLetter(FailOutbox(t, id, worker, error, retryAfter, maxAttempts).0, k)
    ensures LeasedDeadLetter(t, k) && FailOutbox(t, id, worker, error, retryAfter, maxAttempts).0.rows[k] == t.rows[k]
  {
  }

  /** All other transactions take a row they write out of NONE. */
  lemma ClearRowsStandStill(w: World, s: Step, id: nat)
    requires !s.Fail? && !s.Publish? && id in Next(w, s).t.rows && Next(w, s).t.rows[id].state == Clear
    ensures id in w.t.rows && Next(w, s).t.rows[id] == w.t.rows[id]
  {
  }

  /** Each leased dead letter waits behind an abandoned row of its producer. */
  ghost predicate DeadLettersAreBlocked(w: World) {
    forall id :: LeasedDeadLetter(w.t, id) ==> Blocked(w, id)
  }

  ghost predicate Blocked(w: World, id: nat)
    requires id in w.t.rows
  {
    exists b :: 0 <= b < id && Abandoned(w, b) && w.t.rows[b].producer == w.t.rows[id].producer
  }

  lemma BlockedStays(w: World, s: Step)
    requires Safe(w) && DeadLettersAreBlocked(w)
    ensures DeadLettersAreBlocked(Next(w, s))
  {
    forall id | LeasedDeadLetter(Next(w, s).t, id)
      ensures Blocked(Next(w, s), id)
    {
      LeasedDeadLettersAreOld(w, s, id);
      assert Blocked(w, id);
      var b: nat :| b < id && Abandoned(w, b) && w.t.rows[b].producer == w.t.rows[id].producer;
      AbandonedStays(w, s, b);
    }
  }

  /** Nobody gets past an abandoned row, so a blocked dead letter is never passed. */
  lemma BlockedIsNotPassed(w: World, id: nat)
    requires Ordered(w) && id in w.t.rows && Blocked(w, id)
    ensures !PassedBy(w, id)
  {
    var b: nat :| b < id && Abandoned(w, b) && w.t.rows[b].producer == w.t.rows[id].producer;
  }

  lemma {:induction false} BlockedRun(w: World, steps: seq<Step>)
    requires Safe(w) && Ordered(w) && DeadLettersAreBlocked(w)
    ensures OrderedThroughout(w, steps)
    decreases |steps|
  {
    if steps != [] {
      var s := steps[0];
      if Revives(w, s) {
        assert LeasedDeadLetter(w.t, s.id);
        BlockedIsNotPassed(w, s.id);
      }
      OrderedStepIff(w, s);
      SafeStep(w, s);
      BlockedStays(w, s);
      BlockedRun(Next(w, s), steps[1..]);
    }
  }

  /** Revivals do no harm where nothing can get past the dead letter first: every run of a table whose
      leased dead letters are all blocked keeps every producer's order. */
  lemma BlockedTablesKeepTheOrder(w: World, steps: seq<Step>)
    requires Initial(w) && DeadLettersAreBlocked(w)
    ensures OrderedThroughout(w, steps)
  {
    BlockedRun(w, steps);
  }

  /** The legacy table with an abandoned row in front of its dead letter. */
  const STUCK := LEGACY.(t := Put(LEGACY.t, 0, NewRow("m0", "topic", DOC0, Sha256(DOC0), "p", 0).(state := Publishing)))
  const DOC0 := Object("m0", "stuck")

  /** So a leased dead letter does not by itself endanger the order. */
  lemma CleanlinessIsNotNecessary(steps: seq<Step>)
    ensures Initial(STUCK) && !NoLeasedDeadLetter(STUCK.t) && OrderedThroughout(STUCK, steps)
  {
    assert LeasedDeadLetter(STUCK.t, 1);
    assert Abandoned(STUCK, 0);
    BlockedTablesKeepTheOrder(STUCK, steps);
  }
}
