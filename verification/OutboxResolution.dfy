/** What an offline operator's decisions are bound to: a resolved row carries for ever the positive
    evidence of its own stored payload, and an exact claim is the row that was committed to. */
module OutboxResolution {
  import opened Common
  import opened OutboxTable
  import opened OutboxProtocol
  import opened OutboxHistory

  /** The stored resolution proves that exactly this row's payload was found once in Redis. */
  ghost predicate Proven(r: Row, id: nat) {
    && r.state == Acknowledged && r.publishedAt.Some? && r.lastError.Some? && r.lastError.value.Resolution?
    && var n := r.lastError.value;
    && n.identity.id == id && n.evidence.matches == 1
    && n.evidence.topic == r.topic && n.evidence.messageId == r.messageId && n.evidence.payloadSha == Sha256(r.payload)
    && r.reconciliationId == Some(n.reconciliationId)
  }

  ghost predicate AllProven(w: World) {
    forall id :: id in w.resolved ==> id in w.t.rows && Proven(w.t.rows[id], id)
  }

  /** Only a row of unknown outcome is resolved, from one match of its own payload. */
  lemma ResolutionIsProven(t: Table, identity: Identity, rid: string, evidence: Evidence, fits: bool)
    requires Resolve(t, identity, rid, evidence, fits).1.Resolved?
    ensures identity.id in t.rows && t.rows[identity.id].state == OutcomeUnknown && !Settled(t.rows[identity.id])
    ensures Proven(Resolve(t, identity, rid, evidence, fits).0.rows[identity.id], identity.id)
  {
  }

  lemma ResolvedStaysProven(w: World, s: Step)
    requires TableOk(w.t) && AllProven(w)
    ensures forall id :: id in w.resolved ==> id in Next(w, s).t.rows && Proven(Next(w, s).t.rows[id], id)
  {
    StepEvolves(w, s);
    forall id | id in w.resolved
      ensures id in Next(w, s).t.rows && Proven(Next(w, s).t.rows[id], id)
    {
      assert RowEvolves(w.t.rows[id], Next(w, s).t.rows[id]);
    }
  }

  /** Nothing but a resolution adds to the resolved rows. */
  lemma OnlyResolveResolves(w: World, s: Step)
    ensures match s
            case ResolveUnknown(identity, rid, evidence, fits) =>
              Next(w, s).resolved == w.resolved + if Resolve(w.t, identity, rid, evidence, fits).1.Resolved? then {identity.id} else {}
            case _ => Next(w, s).resolved == w.resolved
  {
  }

  lemma StepKeepsProofs(w: World, s: Step)
    requires TableOk(w.t) && AllProven(w)
    ensures AllProven(Next(w, s))
  {
    ResolvedStaysProven(w, s);
    OnlyResolveResolves(w, s);
    if s.ResolveUnknown? && Resolve(w.t, s.identity, s.reconciliationId, s.evidence, s.fits).1.Resolved? {
      ResolutionIsProven(w.t, s.identity, s.reconciliationId, s.evidence, s.fits);
    }
  }

  /** At every point of every run each row an operator resolved still carries its proof. */
  lemma {:induction false} ResolvedRowsCarryProof(w: World, steps: seq<Step>)
    requires TableOk(w.t) && AllProven(w)
    ensures AllProven(Run(w, steps))
    decreases |steps|
  {
    if steps != [] {
      StepEvolves(w, steps[0]);
      StepKeepsProofs(w, steps[0]);
      ResolvedRowsCarryProof(Next(w, steps[0]), steps[1..]);
    }
  }

  /** An exact claim holds exactly the row its operator committed to in advance: its payload is the one
      the committed digest names, its audit copy agrees, it was due and clear and the head of its
      producer's queue, and its lease was as the rule demands. */
  lemma ExactClaimIsTheCommittedRow(t: Table, identity: Identity, rule: LeaseRule, rid: string, lease: int)
    requires rule != Ignored
    ensures var r := ClaimExact(t, identity, rule, rid, lease).1;
            r.Ok? <==>
              && 0 < lease <= MAX_OFFLINE_LEASE && identity.id in t.rows
              && var row := t.rows[identity.id];
              && row.producer == identity.producer && row.topic == identity.topic && row.messageId == identity.messageId
              && row.attempts == identity.attempts && row.payloadSha == Some(Sha256(row.payload))
              && Sha256(row.payload) == identity.payloadSha && row.payload.Object? && row.payload.messageId == row.messageId
              && AuditOf(t, row.messageId) == [AuditRow(row.topic, row.payload)]
              && !Settled(row) && row.state == Clear && row.availableAt <= t.now && !HasPredecessor(t, row.producer, identity.id)
              && if rule == Expired then LeaseExpired(row, t.now) else row.leaseUntil.None?
    ensures ClaimExact(t, identity, rule, rid, lease).1.Ok? ==>
              var c := ClaimExact(t, identity, rule, rid, lease).1.value;
              HashOk(c) && c.payload == t.rows[identity.id].payload && c.attempts == identity.attempts + 1
  {
    if identity.id in t.rows && |AuditOf(t, identity.messageId)| == 1 {
      var audit := AuditOf(t, identity.messageId);
      assert audit == [audit[0]];
    }
  }
}
