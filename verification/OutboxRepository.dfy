/** `AuditRepository` of repository.py: the methods that update outbox rows in place.  Each one
    is proved to do exactly what its transaction in OutboxTable says, including the branch in
    which a guarded UPDATE finds no row. */
module OutboxRepository {
  import opened Common
  import opened OutboxTable

  class AuditRepository {
    var rows: map<nat, Row>
    var nextId: nat
    var audit: map<string, seq<AuditRow>>
    var now: int

    function View(): Table
      reads this
    {
      Table(rows, nextId, audit, now)
    }

    constructor (t: Table)
      ensures View() == t
    {
      rows, nextId, audit, now := t.rows, t.nextId, t.audit, t.now;
    }

    method AdvanceClock(instant: int)
      modifies this`now
      ensures View() == (if old(now) <= instant then old(View()).(now := instant) else old(View()))
    {
      if now <= instant {
        now := instant;
      }
    }

    method AppendPayload(messageId: string, entry: AuditRow)
      modifies this`audit
      ensures View() == AppendAudit(old(View()), messageId, entry)
    {
      audit := audit[messageId := AuditOf(View(), messageId) + [entry]];
    }

    method EnqueueOutbox(id: nat, messageId: string, topic: string, payload: Payload, sha: Digest, producer: string)
      returns (result: EnqueueResult)
      modifies this
      ensures (View(), result) == Enqueue(old(View()), id, messageId, topic, payload, sha, producer)
    {
      if !HasMessage(View(), messageId) {
        rows := rows[id := NewRow(messageId, topic, payload, sha, producer, now)];
        nextId := id + 1;
        return Inserted;
      }
      if id !in rows || !SameMessage(rows[id], topic, payload, sha, producer) {
        return Conflict;
      }
      if rows[id].payloadSha.None? {
        rows := rows[id := rows[id].(payloadSha := Some(sha))];
      }
      result := Duplicate;
    }

    /** At most one record: the head of the producer's unsettled rows, if it may be claimed. */
    method ClaimOutbox(worker: string, producer: string, limit: nat, lease: int, reconciliationId: string)
      returns (records: seq<Claim>)
      modifies this`rows
      ensures records == [] ==> View() == old(View())
      ensures records == [] <==> limit == 0 || forall id :: id in old(rows) ==> !Candidate(old(View()), producer, id)
      ensures records != [] ==>
                var t := old(View());
                var id := records[0].id;
                && Candidate(t, producer, id)
                && records == [RecordOf(t.rows[id], id, worker, reconciliationId)]
                && View() == Put(t, id, ClaimedRow(t.rows[id], worker, lease, reconciliationId, t.now))
    {
      var t := View();
      records := [];
      if limit > 0 && exists id :: id in rows && Candidate(t, producer, id) {
        var id :| id in rows && Candidate(t, producer, id);
        var r := rows[id];
        if r.attempts == 0 && r.leaseOwner.None? && r.leaseUntil.None? {
          rows := rows[id := ClaimedRow(r, worker, lease, reconciliationId, now)];
          records := [RecordOf(r, id, worker, reconciliationId)];
        }
      }
    }

    method MarkPublished(c: Claim) returns (applied: bool)
      modifies this`rows
      ensures (View(), applied) == OutboxTable.MarkPublished(old(View()), c)
    {
      applied := Carries(View(), c);
      if applied {
        rows := rows[c.id := PublishedRow(rows[c.id], now)];
      }
    }

    method MarkOutcomeUnknown(c: Claim, note: Note) returns (applied: bool)
      modifies this`rows
      ensures (View(), applied) == MarkUnknown(old(View()), c, note)
    {
      applied := Carries(View(), c);
      if applied {
        rows := rows[c.id := UnknownRow(rows[c.id], note, now)];
      }
    }

    method FailOutbox(id: nat, worker: string, error: string, retryAfter: int, maxAttempts: nat) returns (applied: bool)
      modifies this`rows
      ensures (View(), applied) == OutboxTable.FailOutbox(old(View()), id, worker, error, retryAfter, maxAttempts)
    {
      applied := Failable(View(), id, worker);
      if applied {
        rows := rows[id := FailedRow(rows[id], error, retryAfter, maxAttempts, now)];
      }
    }

    /** `claim_ready_outbox_exact` and `claim_expired_outbox_exact`.  Inside one transaction the
        guarded UPDATE always finds the row it validated, so the race branch is never taken. */
    method ClaimOutboxExact(identity: Identity, rule: LeaseRule, reconciliationId: string, lease: int)
      returns (result: Result<Claim, Rejection>)
      requires rule != Ignored
      modifies this`rows
      ensures (View(), result) == ClaimExact(old(View()), identity, rule, reconciliationId, lease)
      ensures result != Err(RaceLost)
    {
      if !(0 < lease <= MAX_OFFLINE_LEASE) {
        return Err(InvalidLease);
      }
      var rejection := ValidateExact(View(), identity, rule, true);
      if rejection.Some? {
        return Err(rejection.value);
      }
      var r := rows[identity.id];
      if MatchesIdentity(r, identity) && !Settled(r) && r.availableAt <= now && r.state == Clear
         && (if rule == Expired then LeaseExpired(r, now) else r.leaseUntil.None?) {
        rows := rows[identity.id := ClaimedRow(r, reconciliationId, lease, reconciliationId, now)];
        return Ok(OfflineClaimOf(r, identity, reconciliationId));
      }
      return Err(RaceLost);
    }

    method QuarantineExpiredExact(identity: Identity, lease: ExpiredLease, reconciliationId: string, reason: string)
      returns (result: QuarantineResult)
      modifies this`rows
      ensures (View(), result) == Quarantine(old(View()), identity, lease, reconciliationId, reason)
      ensures result != QuarantineRejected(RaceLost)
    {
      var rejection := ValidateExact(View(), identity, Ignored, false);
      if rejection.Some? {
        return QuarantineRejected(rejection.value);
      }
      var r := rows[identity.id];
      if r.state == OutcomeUnknown {
        return if SameQuarantine(r, lease, reconciliationId, reason) then AlreadyQuarantined
               else QuarantineRejected(ReconciliationNotClear);
      }
      if r.state != Clear {
        return QuarantineRejected(ReconciliationNotClear);
      }
      if now < r.availableAt {
        return QuarantineRejected(NotYetAvailable);
      }
      if !LeaseExpired(r, now) {
        return QuarantineRejected(LeaseNotExpired);
      }
      if r.leaseOwner != Some(lease.owner) || r.leaseUntil != Some(lease.until) {
        return QuarantineRejected(LeaseIdentityMismatch);
      }
      if Settled(r) {
        return QuarantineRejected(RaceLost);
      }
      rows := rows[identity.id := QuarantinedRow(r, reconciliationId, QuarantineNote(reason, lease), now)];
      result := Quarantined;
    }

    method ResolveUnknownFromRedis(identity: Identity, reconciliationId: string, evidence: Evidence, fits: bool)
      returns (result: ResolveResult)
      modifies this`rows
      ensures (View(), result) == Resolve(old(View()), identity, reconciliationId, evidence, fits)
    {
      if evidence.topic != identity.topic || evidence.messageId != identity.messageId
         || evidence.payloadSha != identity.payloadSha {
        return ResolveRejected(EvidenceMismatch);
      }
      if evidence.matches != 1 {
        return if evidence.matches == 0 then NoMatch else MultipleMatches;
      }
      if identity.id !in rows {
        return ResolveRejected(NotFound);
      }
      var r := rows[identity.id];
      if !MatchesIdentity(r, identity) {
        return ResolveRejected(IdentityMismatch);
      }
      if !PayloadMatches(r.payload, identity) {
        return ResolveRejected(PayloadHashMismatch);
      }
      if !AuditMatches(View(), identity, r.payload) {
        return ResolveRejected(AuditMismatch);
      }
      if r.reconciliationId != Some(reconciliationId) {
        return ResolveRejected(ReconciliationIdMismatch);
      }
      if r.state == Acknowledged {
        if r.publishedAt.None? || !Unheld(r) {
          return ResolveRejected(InconsistentPublishedState);
        }
        if !SameResolution(r, identity, reconciliationId, evidence) {
          return ResolveRejected(EvidenceMismatch);
        }
        return AlreadyResolved(r.publishedAt.value);
      }
      if r.state != OutcomeUnknown {
        return ResolveRejected(ReconciliationNotUnknown);
      }
      if r.publishedAt.Some? || !Unheld(r) {
        return ResolveRejected(InconsistentPublishedState);
      }
      if !MetadataValid(r) {
        return ResolveRejected(QuarantineMetadataInvalid);
      }
      if !fits {
        return ResolveRejected(EvidenceTooLarge);
      }
      var note := Resolution(reconciliationId, identity, evidence, r.lastError.value);
      rows := rows[identity.id := ResolvedRow(r, note, now)];
      result := Resolved(now);
    }
  }
}
