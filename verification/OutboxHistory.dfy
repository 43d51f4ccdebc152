/** What whole runs of the outbox protocol guarantee beyond one send per row: causal order per
    producer, no false acknowledgement, and repeatable operator commands. */
module OutboxHistory {
  import opened Common
  import opened OutboxTable
  import opened OutboxProtocol

  // ---- Rows only move forward -----------------------------------------------------------

  ghost function RunTouches(w: World, steps: seq<Step>): set<nat>
    decreases |steps|
  {
    if steps == [] then {} else Touched(w, steps[0]) + RunTouches(Next(w, steps[0]), steps[1..])
  }

  /** Over any run no row is deleted, no immutable column changes, no row returns to NONE, and a
      published row keeps its publication time. */
  lemma {:induction false} RunEvolves(w: World, steps: seq<Step>)
    requires TableOk(w.t)
    ensures Evolves(w.t, Run(w, steps).t, RunTouches(w, steps)) && TableOk(Run(w, steps).t)
    decreases |steps|
  {
    if steps == [] {
      EvolvesRefl(w.t, {});
    } else {
      var v := Next(w, steps[0]);
      StepEvolves(w, steps[0]);
      RunEvolves(v, steps[1..]);
      EvolvesTrans(w.t, v.t, Run(v, steps[1..]).t, Touched(w, steps[0]), RunTouches(v, steps[1..]));
    }
  }

  // ---- Order per producer ---------------------------------------------------------------

  /** Every earlier row of the producer is published or dead-lettered, apart from the excused ones. */
  ghost predicate PrefixSettled(t: Table, producer: string, id: nat, excused: set<nat>) {
    forall p :: p in t.rows && p < id && t.rows[p].producer == producer && p !in excused ==> Settled(t.rows[p])
  }

  /** What was sent, or is held ready, left only settled and excused rows behind it, and of two sends of
      one producer the later has the higher id unless its row is excused. */
  ghost predicate OrderedBut(w: World, excused: set<nat>) {
    && (forall k :: k in w.held && w.held[k].phase == Ready ==>
          PrefixSettled(w.t, w.held[k].claim.producer, w.held[k].claim.id, excused))
    && (forall i :: 0 <= i < |w.sent| ==> PrefixSettled(w.t, w.sent[i].producer, w.sent[i].id, excused))
    && (forall i, j :: 0 <= i < j < |w.sent| && w.sent[i].producer == w.sent[j].producer && w.sent[j].id !in excused ==>
          w.sent[i].id < w.sent[j].id)
  }

  ghost predicate Ordered(w: World) {
    OrderedBut(w, {})
  }

  lemma PrefixKept(t: Table, u: Table, touched: set<nat>, producer: string, id: nat, excused: set<nat>)
    requires TableOk(t) && Evolves(t, u, touched) && KeepsSettled(t, u) && id in t.rows
    requires PrefixSettled(t, producer, id, excused)
    ensures PrefixSettled(u, producer, id, excused)
  {
    forall p | p in u.rows && p < id && u.rows[p].producer == producer && p !in excused
      ensures Settled(u.rows[p])
    {
      assert p in t.rows && RowEvolves(t.rows[p], u.rows[p]);
    }
  }

  /** A holder about to send an unexcused row comes after every row of its producer already sent. */
  lemma ReadyComesAfterSent(w: World, k: nat, i: nat, excused: set<nat>)
    requires Safe(w) && OrderedBut(w, excused) && k in w.held && w.held[k].phase == Ready && i < |w.sent|
    requires w.sent[i].producer == w.held[k].claim.producer && w.held[k].claim.id !in excused
    ensures w.sent[i].id < w.held[k].claim.id
  {
    var c := w.held[k].claim;
    assert ClaimStands(w.t, w.held[k]) && SentOk(w.t, w.sent[i]);
    assert !WasSent(w.sent, c.id);
    assert PrefixSettled(w.t, w.sent[i].producer, w.sent[i].id, excused);
  }

  /** Steps that send nothing and claim nothing. */
  lemma OrderedPassive(w: World, v: World, touched: set<nat>, excused: set<nat>)
    requires Safe(w) && OrderedBut(w, excused) && Evolves(w.t, v.t, touched) && KeepsSettled(w.t, v.t) && v.sent == w.sent
    requires forall k :: k in v.held && v.held[k].phase == Ready ==> k in w.held && v.held[k] == w.held[k]
    ensures OrderedBut(v, excused)
  {
    forall k | k in v.held && v.held[k].phase == Ready
      ensures PrefixSettled(v.t, v.held[k].claim.producer, v.held[k].claim.id, excused)
    {
      assert ClaimStands(w.t, w.held[k]);
      PrefixKept(w.t, v.t, touched, w.held[k].claim.producer, w.held[k].claim.id, excused);
    }
    forall i | 0 <= i < |v.sent|
      ensures PrefixSettled(v.t, v.sent[i].producer, v.sent[i].id, excused)
    {
      assert SentOk(w.t, w.sent[i]);
      PrefixKept(w.t, v.t, touched, w.sent[i].producer, w.sent[i].id, excused);
    }
  }

  lemma OrderedClaim(w: World, v: World, holder: nat, c: Claim, excused: set<nat>)
    requires Safe(w) && OrderedBut(w, excused) && holder !in w.held && Evolves(w.t, v.t, {}) && KeepsSettled(w.t, v.t)
    requires v == w.(t := v.t, held := w.held[holder := Held(c, Ready)])
    requires c.id in w.t.rows && PrefixSettled(w.t, c.producer, c.id, {})
    ensures OrderedBut(v, excused)
  {
    var u := w.(t := v.t);
    OrderedPassive(w, u, {}, excused);
    PrefixKept(w.t, v.t, {}, c.producer, c.id, excused);
    assert forall k :: k in v.held && k != holder ==> v.held[k] == u.held[k];
  }

  lemma OrderedSend(w: World, holder: nat, returned: bool, excused: set<nat>)
    requires Safe(w) && OrderedBut(w, excused) && holder in w.held && w.held[holder].phase == Ready
    ensures OrderedBut(AfterSend(w, holder, returned), excused)
  {
    var v, c := AfterSend(w, holder, returned), w.held[holder].claim;
    if HashOk(c) {
      if c.id !in excused {
        forall i | 0 <= i < |w.sent| && w.sent[i].producer == c.producer
          ensures w.sent[i].id < c.id
        {
          ReadyComesAfterSent(w, holder, i, excused);
        }
      }
      assert v.sent == w.sent + [MessageOf(c)];
    } else {
      EvolvesRefl(w.t, {});
      OrderedPassive(w, v, {}, excused);
    }
  }

  lemma OrderedClaimStep(w: World, s: Step, excused: set<nat>)
    requires Safe(w) && OrderedBut(w, excused) && (s.DispatchClaim? || s.ExactClaim?)
    ensures OrderedBut(Next(w, s), excused)
  {
    if s.holder !in w.held {
      ClaimStepEvolves(w, s);
      if s.DispatchClaim? {
        if Candidate(w.t, s.producer, s.id) {
          OrderedClaim(w, Next(w, s), s.holder, RecordOf(w.t.rows[s.id], s.id, s.worker, s.reconciliationId), excused);
        }
      } else if s.rule != Ignored && ClaimExact(w.t, s.identity, s.rule, s.reconciliationId, s.lease).1.Ok? {
        OrderedClaim(w, Next(w, s), s.holder, OfflineClaimOf(w.t.rows[s.identity.id], s.identity, s.reconciliationId), excused);
      }
    }
  }

  lemma OrderedTransaction(w: World, s: Step, excused: set<nat>)
    requires Safe(w) && OrderedBut(w, excused) && !s.DispatchClaim? && !s.ExactClaim? && !s.Send? && !Revives(w, s)
    ensures OrderedBut(Next(w, s), excused)
  {
    StepEvolves(w, s);
    TransactionShape(w, s);
    OrderedPassive(w, Next(w, s), Touched(w, s), excused);
  }

  lemma OrderedStep(w: World, s: Step, excused: set<nat>)
    requires Safe(w) && OrderedBut(w, excused) && !Revives(w, s)
    ensures OrderedBut(Next(w, s), excused)
  {
    if s.DispatchClaim? || s.ExactClaim? {
      OrderedClaimStep(w, s, excused);
    } else if s.Send? {
      if s.holder in w.held && w.held[s.holder].phase == Ready {
        OrderedSend(w, s.holder, s.returned, excused);
      }
    } else {
      OrderedTransaction(w, s, excused);
    }
  }

  /** A later row of the producer has been sent, or is held ready to be sent. */
  ghost predicate PassedBy(w: World, id: nat)
    requires id in w.t.rows
  {
    || (exists i :: 0 <= i < |w.sent| && w.sent[i].producer == w.t.rows[id].producer && w.sent[i].id > id)
    || (exists k :: k in w.held && w.held[k].phase == Ready && w.held[k].claim.producer == w.t.rows[id].producer
                    && w.held[k].claim.id > id)
  }

  /** A failure report takes back a dead letter that its producer has already moved past. */
  ghost predicate RevivesPassed(w: World, s: Step) {
    Revives(w, s) && PassedBy(w, s.id)
  }

  /** A revival unsettles its own row only, and moves nobody. */
  lemma RevivalShape(w: World, s: Step)
    requires TableOk(w.t) && Revives(w, s)
    ensures var v := Next(w, s);
            && v.held == w.held && v.sent == w.sent && v.t.rows.Keys == w.t.rows.Keys && s.id in w.t.rows
            && v.t.rows[s.id].producer == w.t.rows[s.id].producer && !Settled(v.t.rows[s.id])
            && forall p :: p in w.t.rows && p != s.id ==> v.t.rows[p] == w.t.rows[p]
  {
  }

  /** A revival leaves a settled prefix settled exactly when its row is not in it, or excused. */
  lemma RevivalHurtsPrefixIff(w: World, s: Step, producer: string, id: nat, excused: set<nat>)
    requires TableOk(w.t) && Revives(w, s) && PrefixSettled(w.t, producer, id, excused)
    ensures PrefixSettled(Next(w, s).t, producer, id, excused)
            <==> !(s.id < id && w.t.rows[s.id].producer == producer && s.id !in excused)
  {
    RevivalShape(w, s);
  }

  lemma OrderedRevival(w: World, s: Step, excused: set<nat>)
    requires Safe(w) && OrderedBut(w, excused) && Revives(w, s)
    ensures OrderedBut(Next(w, s), excused) <==> !PassedBy(w, s.id) || s.id in excused
  {
    var v := Next(w, s);
    RevivalShape(w, s);
    forall i | 0 <= i < |w.sent|
      ensures PrefixSettled(v.t, w.sent[i].producer, w.sent[i].id, excused)
              <==> !(s.id < w.sent[i].id && w.t.rows[s.id].producer == w.sent[i].producer && s.id !in excused)
    {
      RevivalHurtsPrefixIff(w, s, w.sent[i].producer, w.sent[i].id, excused);
    }
    forall k | k in w.held && w.held[k].phase == Ready
      ensures PrefixSettled(v.t, w.held[k].claim.producer, w.held[k].claim.id, excused)
              <==> !(s.id < w.held[k].claim.id && w.t.rows[s.id].producer == w.held[k].claim.producer && s.id !in excused)
    {
      RevivalHurtsPrefixIff(w, s, w.held[k].claim.producer, w.held[k].claim.id, excused);
    }
  }

  /** One step keeps the order exactly when it does not revive a row its producer has passed. */
  lemma OrderedStepIff(w: World, s: Step)
    requires Safe(w) && Ordered(w)
    ensures Ordered(Next(w, s)) <==> !RevivesPassed(w, s)
  {
    if Revives(w, s) {
      OrderedRevival(w, s, {});
    } else {
      OrderedStep(w, s, {});
    }
  }

  /** The order holds at every point of a run. */
  ghost predicate OrderedThroughout(w: World, steps: seq<Step>)
    decreases |steps|
  {
    Ordered(w) && (steps == [] || OrderedThroughout(Next(w, steps[0]), steps[1..]))
  }

  ghost predicate NoPassedRevival(w: World, steps: seq<Step>)
    decreases |steps|
  {
    steps == [] || (!RevivesPassed(w, steps[0]) && NoPassedRevival(Next(w, steps[0]), steps[1..]))
  }

  lemma {:induction false} OrderedRunIff(w: World, steps: seq<Step>)
    requires Safe(w) && Ordered(w)
    ensures OrderedThroughout(w, steps) <==> NoPassedRevival(w, steps)
    decreases |steps|
  {
    if steps != [] {
      SafeStep(w, steps[0]);
      OrderedStepIff(w, steps[0]);
      if Ordered(Next(w, steps[0])) {
        OrderedRunIff(Next(w, steps[0]), steps[1..]);
      }
    }
  }

  /** For one producer, sends rise strictly in row id and every earlier row of a sent row is published
      or dead-lettered, at every point of a run, whatever the number and kind of workers: exactly
      when the run never revives a dead letter its producer has already passed. */
  lemma SendsFollowRowOrder(w: World, steps: seq<Step>)
    requires Initial(w)
    ensures OrderedThroughout(w, steps) <==> NoPassedRevival(w, steps)
  {
    OrderedRunIff(w, steps);
  }

  /** An order that holds throughout holds at the end. */
  lemma {:induction false} OrderedAtTheEnd(w: World, steps: seq<Step>)
    requires OrderedThroughout(w, steps)
    ensures Ordered(Run(w, steps))
    decreases |steps|
  {
    if steps != [] {
      OrderedAtTheEnd(Next(w, steps[0]), steps[1..]);
    }
  }

  /** The send itself happens only when every earlier row of the producer is settled already. */
  lemma SendWaitsForPredecessors(w: World, s: Step)
    requires Safe(w) && Ordered(w) && Next(w, s).sent != w.sent
    ensures exists c: Claim :: Next(w, s).sent == w.sent + [MessageOf(c)] && PrefixSettled(w.t, c.producer, c.id, {})
                               && c.id in w.t.rows && w.t.rows[c.id].state == Publishing && !Settled(w.t.rows[c.id])
  {
    if s.Send? {
      var c := w.held[s.holder].claim;
      assert ClaimStands(w.t, w.held[s.holder]);
      assert Next(w, s).sent == w.sent + [MessageOf(c)];
    } else if !s.DispatchClaim? && !s.ExactClaim? {
      TransactionShape(w, s);
    }
  }

  /** No unpublished row waits dead-lettered with somebody's lease still on it. */
  ghost predicate NoLeasedDeadLetter(t: Table) {
    forall id :: id in t.rows && t.rows[id].state == Clear && t.rows[id].publishedAt.None? && t.rows[id].deadLetteredAt.Some? ==>
      t.rows[id].leaseOwner.None?
  }

  ghost predicate ReviveFree(w: World, steps: seq<Step>)
    decreases |steps|
  {
    steps == [] || (!Revives(w, steps[0]) && ReviveFree(Next(w, steps[0]), steps[1..]))
  }

  lemma NoLeasedDeadLetterStep(w: World, s: Step)
    requires TableOk(w.t) && NoLeasedDeadLetter(w.t)
    ensures NoLeasedDeadLetter(Next(w, s).t) && !Revives(w, s)
  {
  }

  lemma {:induction false} CleanTablesReviveNothing(w: World, steps: seq<Step>)
    requires TableOk(w.t) && NoLeasedDeadLetter(w.t)
    ensures ReviveFree(w, steps)
    decreases |steps|
  {
    if steps != [] {
      NoLeasedDeadLetterStep(w, steps[0]);
      StepEvolves(w, steps[0]);
      CleanTablesReviveNothing(Next(w, steps[0]), steps[1..]);
    }
  }

  /** The leased dead letter can be taken back at once. */
  lemma LeasedDeadLetterRevives(w: World, id: nat)
    requires id in w.t.rows && w.t.rows[id].state == Clear && w.t.rows[id].publishedAt.None?
    requires w.t.rows[id].deadLetteredAt.Some? && w.t.rows[id].leaseOwner.Some?
    ensures exists steps :: !ReviveFree(w, steps)
  {
    var fail := Fail(id, w.t.rows[id].leaseOwner.value, "", 0, w.t.rows[id].attempts + 1);
    assert Revives(w, fail);
    assert [fail][0] == fail;
    assert !ReviveFree(w, [fail]);
  }

  /** A table can never see a revival exactly when it holds no leased, unpublished dead letter. */
  lemma CleanTablesAreReviveFree(w: World)
    requires TableOk(w.t)
    ensures NoLeasedDeadLetter(w.t) <==> forall steps :: ReviveFree(w, steps)
  {
    if NoLeasedDeadLetter(w.t) {
      forall steps
        ensures ReviveFree(w, steps)
      {
        CleanTablesReviveNothing(w, steps);
      }
    } else {
      var id :| id in w.t.rows && w.t.rows[id].state == Clear && w.t.rows[id].publishedAt.None?
                && w.t.rows[id].deadLetteredAt.Some? && w.t.rows[id].leaseOwner.Some?;
      LeasedDeadLetterRevives(w, id);
    }
  }

  lemma {:induction false} RevivingNothingPassesNothing(w: World, steps: seq<Step>)
    requires ReviveFree(w, steps)
    ensures NoPassedRevival(w, steps)
    decreases |steps|
  {
    if steps != [] {
      RevivingNothingPassesNothing(Next(w, steps[0]), steps[1..]);
    }
  }

  /** So on a table without such rows every run keeps the order of every producer. */
  lemma CleanTablesKeepTheOrder(w: World, steps: seq<Step>)
    requires Initial(w) && NoLeasedDeadLetter(w.t)
    ensures OrderedThroughout(w, steps)
  {
    CleanTablesReviveNothing(w, steps);
    RevivingNothingPassesNothing(w, steps);
    SendsFollowRowOrder(w, steps);
  }

  // ---- The legacy row that breaks the order -----------------------------------------------

  const DOC1 := Object("m1", "first")
  const DOC2 := Object("m2", "second")

  /** A dead letter that older code left with its lease, and a fresh row behind it. */
  const LEGACY := World(
    Table(map[1 := NewRow("m1", "topic", DOC1, Sha256(DOC1), "p", 0)
                    .(deadLetteredAt := Some(0), leaseOwner := Some("old"), leaseUntil := Some(0)),
              2 := NewRow("m2", "topic", DOC2, Sha256(DOC2), "p", 0)], 3, map[], 0),
    map[], [], {})

  const REVIVAL: seq<Step> :=
    [DispatchClaim(0, 2, "p", "new", 30, "r2"), Send(0, true), Fail(1, "old", "late failure", 0, 5),
     DispatchClaim(1, 1, "p", "new", 30, "r1"), Send(1, true)]

  /** A late `fail_outbox` on such a row revives it behind a row that was already sent, so the
      order per producer does not hold for every legacy table. */
  lemma ReviveBreaksOrder()
    ensures Initial(LEGACY) && !NoLeasedDeadLetter(LEGACY.t)
    ensures var v := Run(LEGACY, REVIVAL);
            |v.sent| == 2 && v.sent[0].producer == v.sent[1].producer && v.sent[0].id > v.sent[1].id
  {
    var w3 := RevivalHalf();
    RevivedIsSent(w3);
    UnrollFive(LEGACY, REVIVAL);
  }

  lemma RevivedIsSent(w: World)
    requires w.t.rows.Keys == {1, 2} && w.t.now == 0 && w.held.Keys == {0} && w.sent == [Message(2, "p", "topic", DOC2)]
    requires 1 in w.t.rows && var r := w.t.rows[1];
             && r.producer == "p" && r.topic == "topic" && r.payload == DOC1 && r.payloadSha == Some(Sha256(DOC1)) && r.attempts == 0
             && r.state == Clear && r.publishedAt.None? && r.deadLetteredAt.None? && r.leaseOwner.None? && r.leaseUntil.None?
             && r.availableAt <= 0
    ensures Next(Next(w, REVIVAL[3]), REVIVAL[4]).sent == [Message(2, "p", "topic", DOC2), Message(1, "p", "topic", DOC1)]
  {
    assert !HasPredecessor(w.t, "p", 1);
    var w4 := Next(w, REVIVAL[3]);
    assert w4.held[1] == Held(RecordOf(w.t.rows[1], 1, "new", "r1"), Ready);
  }

  /** The fresh row is claimed and sent, then the dead letter comes back. */
  lemma RevivalHalf() returns (w3: World)
    ensures w3 == Next(Next(Next(LEGACY, REVIVAL[0]), REVIVAL[1]), REVIVAL[2])
    ensures 1 in LEGACY.t.rows && w3.sent == [Message(2, "p", "topic", DOC2)] && w3.t.now == 0 && w3.held.Keys == {0}
    ensures w3.t.rows.Keys == {1, 2} && w3.t.rows[1] == FailedRow(LEGACY.t.rows[1], "late failure", 0, 5, 0)
  {
    assert 1 in LEGACY.t.rows;
    var w1 := Next(LEGACY, REVIVAL[0]);
    assert w1.held == map[0 := Held(RecordOf(LEGACY.t.rows[2], 2, "new", "r2"), Ready)];
    var w2 := Next(w1, REVIVAL[1]);
    w3 := Next(w2, REVIVAL[2]);
  }

  lemma RunOne(w: World, s: Step, rest: seq<Step>)
    ensures Run(w, [s] + rest) == Run(Next(w, s), rest)
  {
    assert ([s] + rest)[1..] == rest;
  }

  lemma UnrollFive(w: World, s: seq<Step>)
    requires |s| == 5
    ensures Run(w, s) == Next(Next(Next(Next(Next(w, s[0]), s[1]), s[2]), s[3]), s[4])
  {
    var w2 := Next(Next(w, s[0]), s[1]);
    var w4 := Next(Next(w2, s[2]), s[3]);
    assert s == [s[0]] + s[1..] && s[1..] == [s[1]] + s[2..] && s[2..] == [s[2]] + s[3..];
    assert s[3..] == [s[3]] + s[4..] && s[4..] == [s[4]] + [];
    RunOne(w, s[0], s[1..]);
    RunOne(Next(w, s[0]), s[1], s[2..]);
    RunOne(w2, s[2], s[3..]);
    RunOne(Next(w2, s[2]), s[3], s[4..]);
    RunOne(w4, s[4], []);
  }

  // ---- Acknowledgements -----------------------------------------------------------------

  /** After a send that returned, the acknowledging UPDATE always finds its claim: ACK_NOT_APPLIED
      needs a database failure, never a race. */
  lemma AckAlwaysApplies(w: World, steps: seq<Step>, holder: nat)
    requires Initial(w)
    requires var v := Run(w, steps); holder in v.held && v.held[holder].phase == Handed
    ensures var v := Run(w, steps); MarkPublished(v.t, v.held[holder].claim).1
  {
    SafeRun(w, steps);
    assert ClaimStands(Run(w, steps).t, Run(w, steps).held[holder]);
  }

  /** Every publication mark has a cause. */
  ghost predicate Accounted(t0: Table, w: World) {
    && (forall id :: id in w.t.rows && w.t.rows[id].publishedAt.Some? ==>
          (id in t0.rows && t0.rows[id].publishedAt.Some?) || WasSent(w.sent, id) || id in w.resolved)
    && (forall k :: k in w.held && w.held[k].phase == Handed ==> WasSent(w.sent, w.held[k].claim.id))
  }

  lemma WasSentKept(w: World, v: World, id: nat)
    requires WasSent(w.sent, id) && w.sent <= v.sent
    ensures WasSent(v.sent, id)
  {
    var i :| 0 <= i < |w.sent| && w.sent[i].id == id;
    assert v.sent[i] == w.sent[i];
  }

  ghost predicate NewlyPublished(t: Table, u: Table, id: nat) {
    id in u.rows && u.rows[id].publishedAt.Some? && !(id in t.rows && t.rows[id].publishedAt.Some?)
  }

  lemma OnlyTouchedArePublished(t: Table, u: Table, touched: set<nat>, id: nat)
    requires Steps(t, u, touched) && NewlyPublished(t, u, id)
    ensures id in touched
  {
  }

  /** A row becomes published only by the acknowledgement of a completed send or by a resolution. */
  lemma PublishedByAckOrResolve(w: World, s: Step, id: nat)
    requires TableOk(w.t) && NewlyPublished(w.t, Next(w, s).t, id)
    ensures || (s.Ack? && s.holder in w.held && w.held[s.holder].phase == Handed && w.held[s.holder].claim.id == id)
            || (s.ResolveUnknown? && id in Next(w, s).resolved)
  {
    StepEvolves(w, s);
    OnlyTouchedArePublished(w.t, Next(w, s).t, Touched(w, s), id);
    TouchedIsPublished(w, s, id);
  }

  lemma TouchedIsPublished(w: World, s: Step, id: nat)
    requires id in Touched(w, s) && NewlyPublished(w.t, Next(w, s).t, id)
    ensures s.Ack? || (s.ResolveUnknown? && id in Next(w, s).resolved)
  {
  }

  lemma TraceGrows(w: World, s: Step)
    ensures w.sent <= Next(w, s).sent && w.resolved <= Next(w, s).resolved
  {
  }

  lemma AccountedStep(t0: Table, w: World, s: Step)
    requires Safe(w) && Accounted(t0, w)
    ensures Accounted(t0, Next(w, s))
  {
    var v := Next(w, s);
    TraceGrows(w, s);
    forall id | id in v.t.rows && v.t.rows[id].publishedAt.Some?
      ensures (id in t0.rows && t0.rows[id].publishedAt.Some?) || WasSent(v.sent, id) || id in v.resolved
    {
      if !(id in w.t.rows && w.t.rows[id].publishedAt.Some?) {
        PublishedByAckOrResolve(w, s, id);
      }
      if WasSent(w.sent, id) {
        WasSentKept(w, v, id);
      }
    }
    forall k | k in v.held && v.held[k].phase == Handed
      ensures WasSent(v.sent, v.held[k].claim.id)
    {
      if k in w.held && v.held[k] == w.held[k] {
        WasSentKept(w, v, w.held[k].claim.id);
      } else if s.Send? {
        assert v.sent[|w.sent|].id == v.held[k].claim.id;
      } else if !s.DispatchClaim? && !s.ExactClaim? {
        TransactionShape(w, s);
      }
    }
  }

  lemma {:induction false} AccountedRun(t0: Table, w: World, steps: seq<Step>)
    requires Safe(w) && Accounted(t0, w)
    ensures Accounted(t0, Run(w, steps))
    decreases |steps|
  {
    if steps != [] {
      SafeStep(w, steps[0]);
      AccountedStep(t0, w, steps[0]);
      AccountedRun(t0, Next(w, steps[0]), steps[1..]);
    }
  }

  /** A row is never marked published unless it was so already, was really handed to the
      transport, or was resolved from positive Redis evidence. */
  lemma NoFalseAcknowledgement(w: World, steps: seq<Step>, id: nat)
    requires Initial(w) && id in Run(w, steps).t.rows && Run(w, steps).t.rows[id].publishedAt.Some?
    ensures var v := Run(w, steps);
            (id in w.t.rows && w.t.rows[id].publishedAt.Some?) || WasSent(v.sent, id) || id in v.resolved
  {
    AccountedRun(w.t, w, steps);
  }

  // ---- Repeating operator commands ------------------------------------------------------

  /** Repeating a quarantine after any run that leaves the row alone reports it and changes
      nothing; only a new audit row for the message can make it refuse. */
  lemma QuarantineRepeats(w: World, identity: Identity, lease: ExpiredLease, rid: string, reason: string, steps: seq<Step>)
    requires TableOk(w.t) && Quarantine(w.t, identity, lease, rid, reason).1.Quarantined?
    requires var u := Next(w, QuarantineExpired(identity, lease, rid, reason)); identity.id !in RunTouches(u, steps)
    ensures var v := Run(Next(w, QuarantineExpired(identity, lease, rid, reason)), steps);
            identity.id in v.t.rows && Quarantine(v.t, identity, lease, rid, reason)
            == (v.t, if AuditMatches(v.t, identity, v.t.rows[identity.id].payload) then AlreadyQuarantined
                     else QuarantineRejected(AuditMismatch))
  {
    var u := Next(w, QuarantineExpired(identity, lease, rid, reason));
    QuarantineSteps(w.t, identity, lease, rid, reason);
    RunEvolves(u, steps);
    assert Frozen(u.t.rows[identity.id], Run(u, steps).t.rows[identity.id]);
    QuarantinedAgain(w.t, Run(u, steps).t, identity, lease, rid, reason);
  }

  /** A quarantined row that stayed frozen is recognised. */
  lemma QuarantinedAgain(t: Table, v: Table, identity: Identity, lease: ExpiredLease, rid: string, reason: string)
    requires Quarantine(t, identity, lease, rid, reason).1.Quarantined?
    requires var u := Quarantine(t, identity, lease, rid, reason).0;
             identity.id in u.rows && identity.id in v.rows && Frozen(u.rows[identity.id], v.rows[identity.id])
    ensures Quarantine(v, identity, lease, rid, reason)
            == (v, if AuditMatches(v, identity, v.rows[identity.id].payload) then AlreadyQuarantined
                   else QuarantineRejected(AuditMismatch))
  {
  }

  /** Repeating a resolution after any run at all returns the first resolution time. */
  lemma ResolveRepeats(w: World, identity: Identity, rid: string, evidence: Evidence, fits: bool, again: bool, steps: seq<Step>)
    requires TableOk(w.t) && Resolve(w.t, identity, rid, evidence, fits).1.Resolved?
    ensures var v := Run(Next(w, ResolveUnknown(identity, rid, evidence, fits)), steps);
            identity.id in v.t.rows && Resolve(v.t, identity, rid, evidence, again)
            == (v.t, if AuditMatches(v.t, identity, v.t.rows[identity.id].payload) then AlreadyResolved(w.t.now)
                     else ResolveRejected(AuditMismatch))
  {
    var u := Next(w, ResolveUnknown(identity, rid, evidence, fits));
    ResolveSteps(w.t, identity, rid, evidence, fits);
    RunEvolves(u, steps);
    assert RowEvolves(u.t.rows[identity.id], Run(u, steps).t.rows[identity.id]);
    ResolvedAgain(w.t, Run(u, steps).t, identity, rid, evidence, fits, again);
  }

  /** A resolved row that stayed frozen is recognised, and the first resolution time reported. */
  lemma ResolvedAgain(t: Table, v: Table, identity: Identity, rid: string, evidence: Evidence, fits: bool, again: bool)
    requires Resolve(t, identity, rid, evidence, fits).1.Resolved?
    requires var u := Resolve(t, identity, rid, evidence, fits).0;
             identity.id in u.rows && identity.id in v.rows && Frozen(u.rows[identity.id], v.rows[identity.id])
    ensures Resolve(v, identity, rid, evidence, again)
            == (v, if AuditMatches(v, identity, v.rows[identity.id].payload) then AlreadyResolved(t.now)
                   else ResolveRejected(AuditMismatch))
  {
  }
}
