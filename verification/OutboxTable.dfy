/** The `message_outbox` and `event_audit` tables of repository.py as values, and what one
    transaction does to them.

    A transaction is one atomic step.  `now()` is the transaction clock.  SHA-256 is a free
    constructor, so equal digests mean equal payloads.  Row ids come from a database sequence
    and are assumed to be handed out in commit order: a new row's id exceeds every id handed
    out before. */
module OutboxTable {
  import opened Common

  /** A stored JSON document: an object with its `message_id`, or something that cannot be
      canonicalised to an object. */
  datatype Payload = Object(messageId: string, body: string) | Malformed

  datatype Digest = Sha256(content: Payload)

  datatype Reconciliation = Clear | Publishing | OutcomeUnknown | Acknowledged

  /** `last_error` holds free text or one of two canonical JSON documents. */
  datatype Note =
    | Text(text: string)
    | QuarantineEvidence(reason: string, leaseOwner: string, leaseUntil: int)
    | Resolution(reconciliationId: string, identity: Identity, evidence: Evidence, legacy: Note)

  datatype Row = Row(
    producer: string,
    messageId: string,
    topic: string,
    payload: Payload,
    payloadSha: Option<Digest>,
    attempts: nat,
    publishedAt: Option<int>,
    deadLetteredAt: Option<int>,
    leaseOwner: Option<string>,
    leaseUntil: Option<int>,
    availableAt: int,
    state: Reconciliation,
    reconciliationId: Option<string>,
    startedAt: Option<int>,
    outcomeAt: Option<int>,
    lastError: Option<Note>)

  datatype AuditRow = AuditRow(topic: string, payload: Payload)

  datatype Table = Table(rows: map<nat, Row>, nextId: nat, audit: map<string, seq<AuditRow>>, now: int)

  /** Every immutable field an offline operator commits to in advance. */
  datatype Identity = Identity(
    id: nat, producer: string, messageId: string, topic: string, payloadSha: Digest, attempts: nat)

  datatype ExpiredLease = ExpiredLease(owner: string, until: int)

  /** What a read-only Redis probe saw; `probe` stands for the remaining evidence fields. */
  datatype Evidence = Evidence(topic: string, messageId: string, payloadSha: Digest, matches: nat, probe: string)

  /** A claim as its holder keeps it in memory: an OutboxRecord (automatic) or an
      OfflineOutboxClaim. */
  datatype Claim = Claim(
    offline: bool, id: nat, producer: string, messageId: string, topic: string, payload: Payload,
    payloadSha: Option<Digest>, attempts: nat, owner: string, reconciliationId: string)

  datatype Rejection =
    | NotFound | IdentityMismatch | AlreadyPublished | DeadLettered | LeaseNotExpired | LeasePresent
    | LeaseIdentityMismatch | NotYetAvailable | ReconciliationNotClear | EarlierUnpublishedPredecessor
    | PayloadHashMismatch | AuditMismatch | RaceLost | ReconciliationIdMismatch
    | ReconciliationNotUnknown | InconsistentPublishedState | QuarantineMetadataInvalid
    | EvidenceMismatch | EvidenceTooLarge | InvalidLease

  datatype LeaseRule = Expired | Unleased | Ignored

  /** The longest lease an offline tool may take, in seconds. */
  const MAX_OFFLINE_LEASE := 300

  predicate Settled(r: Row) {
    r.publishedAt.Some? || r.deadLetteredAt.Some?
  }

  predicate HasPredecessor(t: Table, producer: string, id: nat) {
    exists p :: p in t.rows && p < id && t.rows[p].producer == producer && !Settled(t.rows[p])
  }

  predicate LeaseExpired(r: Row, now: int) {
    r.leaseUntil.Some? && r.leaseUntil.value < now
  }

  function AuditOf(t: Table, messageId: string): seq<AuditRow> {
    if messageId in t.audit then t.audit[messageId] else []
  }

  predicate MatchesIdentity(r: Row, identity: Identity) {
    && r.producer == identity.producer && r.messageId == identity.messageId && r.topic == identity.topic
    && r.payloadSha == Some(identity.payloadSha) && r.attempts == identity.attempts
  }

  /** The stored payload is the one the identity names. */
  predicate PayloadMatches(p: Payload, identity: Identity) {
    p.Object? && Sha256(p) == identity.payloadSha && p.messageId == identity.messageId
  }

  predicate AuditMatches(t: Table, identity: Identity, p: Payload) {
    var audit := AuditOf(t, identity.messageId);
    |audit| == 1 && audit[0].topic == identity.topic && audit[0].payload == p && PayloadMatches(p, identity)
  }

  /** `_validate_exact_offline_outbox`: the checks in the order the code makes them. */
  function ValidateExact(t: Table, identity: Identity, rule: LeaseRule, full: bool): Option<Rejection> {
    if identity.id !in t.rows then Some(NotFound)
    else
      var r := t.rows[identity.id];
      if !MatchesIdentity(r, identity) then Some(IdentityMismatch)
      else if r.publishedAt.Some? then Some(AlreadyPublished)
      else if r.deadLetteredAt.Some? then Some(DeadLettered)
      else if rule == Expired && !LeaseExpired(r, t.now) then Some(LeaseNotExpired)
      else if rule == Unleased && r.leaseUntil.Some? then Some(LeasePresent)
      else if full && t.now < r.availableAt then Some(NotYetAvailable)
      else if full && r.state != Clear then Some(ReconciliationNotClear)
      else if full && HasPredecessor(t, identity.producer, identity.id) then Some(EarlierUnpublishedPredecessor)
      else if !PayloadMatches(r.payload, identity) then Some(PayloadHashMismatch)
      else if !AuditMatches(t, identity, r.payload) then Some(AuditMismatch)
      else None
  }

  // ---- What each UPDATE writes to its one row -------------------------------------------

  function ClaimedRow(r: Row, owner: string, lease: int, reconciliationId: string, now: int): Row {
    r.(leaseOwner := Some(owner), leaseUntil := Some(now + lease), attempts := r.attempts + 1,
       state := Publishing, reconciliationId := Some(reconciliationId), startedAt := Some(now),
       outcomeAt := None, lastError := None)
  }

  function PublishedRow(r: Row, now: int): Row {
    r.(publishedAt := Some(now), leaseUntil := None, leaseOwner := None, lastError := None,
       state := Acknowledged, outcomeAt := Some(now))
  }

  function UnknownRow(r: Row, note: Note, now: int): Row {
    r.(leaseUntil := None, leaseOwner := None, lastError := Some(note), state := OutcomeUnknown,
       outcomeAt := Some(now))
  }

  function QuarantinedRow(r: Row, reconciliationId: string, note: Note, now: int): Row {
    UnknownRow(r, note, now).(reconciliationId := Some(reconciliationId), startedAt := Some(now))
  }

  function ResolvedRow(r: Row, note: Note, now: int): Row {
    r.(publishedAt := Some(now), state := Acknowledged, lastError := Some(note))
  }

  function FailedRow(r: Row, error: string, retryAfter: int, maxAttempts: nat, now: int): Row {
    r.(lastError := Some(Text(error)), leaseUntil := None, leaseOwner := None,
       availableAt := now + retryAfter,
       deadLetteredAt := if r.attempts >= maxAttempts then Some(now) else None)
  }

  function NewRow(messageId: string, topic: string, payload: Payload, sha: Digest, producer: string, now: int): Row {
    Row(producer, messageId, topic, payload, Some(sha), 0, None, None, None, None, now, Clear, None, None, None, None)
  }

  function Put(t: Table, id: nat, r: Row): Table {
    t.(rows := t.rows[id := r])
  }

  // ---- Guards of each UPDATE -----------------------------------------------------------

  /** A row the automatic dispatcher may claim. */
  predicate Candidate(t: Table, producer: string, id: nat) {
    && id in t.rows
    && var r := t.rows[id];
    && r.producer == producer && !Settled(r) && r.state == Clear && r.attempts == 0
    && r.availableAt <= t.now && r.leaseOwner.None? && r.leaseUntil.None?
    && !HasPredecessor(t, producer, id)
  }

  /** The `WHERE` clause shared by `mark_published`, `acknowledge_exact_outbox_publish` and the
      two unknown markers: the row still carries exactly this claim. */
  predicate Carries(t: Table, c: Claim) {
    && c.id in t.rows
    && var r := t.rows[c.id];
    && r.producer == c.producer && r.messageId == c.messageId && r.topic == c.topic
    && r.payloadSha == c.payloadSha && r.attempts == c.attempts
    && (c.offline || r.leaseOwner == Some(c.owner))
    && r.reconciliationId == Some(c.reconciliationId) && r.state == Publishing && !Settled(r)
  }

  predicate Failable(t: Table, id: nat, worker: string) {
    && id in t.rows && t.rows[id].leaseOwner == Some(worker) && t.rows[id].publishedAt.None?
    && t.rows[id].state == Clear
  }

  // ---- Transactions --------------------------------------------------------------------

  function RecordOf(r: Row, id: nat, worker: string, reconciliationId: string): Claim {
    Claim(false, id, r.producer, r.messageId, r.topic, r.payload, r.payloadSha, r.attempts + 1, worker, reconciliationId)
  }

  function OfflineClaimOf(r: Row, identity: Identity, reconciliationId: string): Claim {
    Claim(true, identity.id, identity.producer, identity.messageId, identity.topic, r.payload,
          Some(identity.payloadSha), identity.attempts + 1, reconciliationId, reconciliationId)
  }

  /** `claim_ready_outbox_exact` (Unleased) and `claim_expired_outbox_exact` (Expired). */
  function ClaimExact(t: Table, identity: Identity, rule: LeaseRule, reconciliationId: string, lease: int)
    : (Table, Result<Claim, Rejection>)
  {
    if !(0 < lease <= MAX_OFFLINE_LEASE) then (t, Err(InvalidLease))
    else match ValidateExact(t, identity, rule, true)
    case Some(why) => (t, Err(why))
    case None =>
      var r := t.rows[identity.id];
      (Put(t, identity.id, ClaimedRow(r, reconciliationId, lease, reconciliationId, t.now)),
       Ok(OfflineClaimOf(r, identity, reconciliationId)))
  }

  function MarkPublished(t: Table, c: Claim): (Table, bool) {
    if Carries(t, c) then (Put(t, c.id, PublishedRow(t.rows[c.id], t.now)), true) else (t, false)
  }

  function MarkUnknown(t: Table, c: Claim, note: Note): (Table, bool) {
    if Carries(t, c) then (Put(t, c.id, UnknownRow(t.rows[c.id], note, t.now)), true) else (t, false)
  }

  function FailOutbox(t: Table, id: nat, worker: string, error: string, retryAfter: int, maxAttempts: nat)
    : (Table, bool)
  {
    if Failable(t, id, worker)
    then (Put(t, id, FailedRow(t.rows[id], error, retryAfter, maxAttempts, t.now)), true)
    else (t, false)
  }

  datatype EnqueueResult = Inserted | Duplicate | Conflict

  predicate HasMessage(t: Table, messageId: string) {
    exists id :: id in t.rows && t.rows[id].messageId == messageId
  }

  predicate SameMessage(r: Row, topic: string, payload: Payload, sha: Digest, producer: string) {
    r.topic == topic && r.producer == producer && r.payload == payload
    && (r.payloadSha.None? || r.payloadSha == Some(sha))
  }

  /** `enqueue_outbox`.  `id` is the row that already carries this message, or the id the
      sequence hands out when there is none. */
  function Enqueue(t: Table, id: nat, messageId: string, topic: string, payload: Payload, sha: Digest, producer: string)
    : (Table, EnqueueResult)
  {
    if !HasMessage(t, messageId) then
      (Put(t, id, NewRow(messageId, topic, payload, sha, producer, t.now)).(nextId := id + 1), Inserted)
    else if id !in t.rows || !SameMessage(t.rows[id], topic, payload, sha, producer) then (t, Conflict)
    else if t.rows[id].payloadSha.None? then (Put(t, id, t.rows[id].(payloadSha := Some(sha))), Duplicate)
    else (t, Duplicate)
  }

  predicate EnqueueIdOk(t: Table, id: nat, messageId: string) {
    if HasMessage(t, messageId) then id in t.rows && t.rows[id].messageId == messageId else id >= t.nextId
  }

  function AppendAudit(t: Table, messageId: string, entry: AuditRow): Table {
    t.(audit := t.audit[messageId := AuditOf(t, messageId) + [entry]])
  }

  datatype QuarantineResult = Quarantined | AlreadyQuarantined | QuarantineRejected(why: Rejection)

  function QuarantineNote(reason: string, lease: ExpiredLease): Note {
    QuarantineEvidence(reason, lease.owner, lease.until)
  }

  /** A stored quarantine is repeated exactly. */
  predicate SameQuarantine(r: Row, lease: ExpiredLease, reconciliationId: string, reason: string) {
    && r.startedAt.Some? && r.outcomeAt.Some? && r.startedAt.value <= r.outcomeAt.value
    && r.reconciliationId == Some(reconciliationId) && r.lastError == Some(QuarantineNote(reason, lease))
    && r.leaseOwner.None? && r.leaseUntil.None?
  }

  /** `quarantine_expired_outbox_exact`. */
  function Quarantine(t: Table, identity: Identity, lease: ExpiredLease, reconciliationId: string, reason: string)
    : (Table, QuarantineResult)
  {
    match ValidateExact(t, identity, Ignored, false)
    case Some(why) => (t, QuarantineRejected(why))
    case None =>
      var r := t.rows[identity.id];
      if r.state == OutcomeUnknown then
        (t, if SameQuarantine(r, lease, reconciliationId, reason) then AlreadyQuarantined
            else QuarantineRejected(ReconciliationNotClear))
      else if r.state != Clear then (t, QuarantineRejected(ReconciliationNotClear))
      else if t.now < r.availableAt then (t, QuarantineRejected(NotYetAvailable))
      else if !LeaseExpired(r, t.now) then (t, QuarantineRejected(LeaseNotExpired))
      else if r.leaseOwner != Some(lease.owner) || r.leaseUntil != Some(lease.until) then
        (t, QuarantineRejected(LeaseIdentityMismatch))
      else
        (Put(t, identity.id, QuarantinedRow(r, reconciliationId, QuarantineNote(reason, lease), t.now)), Quarantined)
  }

  datatype ResolveResult =
    | Resolved(at: int) | AlreadyResolved(at: int) | NoMatch | MultipleMatches | ResolveRejected(why: Rejection)

  predicate Unheld(r: Row) {
    r.deadLetteredAt.None? && r.leaseOwner.None? && r.leaseUntil.None?
  }

  predicate MetadataValid(r: Row) {
    r.lastError.Some? && r.lastError.value != Text("") && r.startedAt.Some? && r.outcomeAt.Some?
  }

  predicate SameResolution(r: Row, identity: Identity, reconciliationId: string, evidence: Evidence) {
    && r.lastError.Some? && r.lastError.value.Resolution?
    && r.lastError.value.reconciliationId == reconciliationId
    && r.lastError.value.identity == identity && r.lastError.value.evidence == evidence
  }

  /** `resolve_unknown_outbox_from_redis_evidence`.  `fits` says whether the encoded record
      stays within its 4000-byte limit, which depends on the JSON encoding. */
  function Resolve(t: Table, identity: Identity, reconciliationId: string, evidence: Evidence, fits: bool)
    : (Table, ResolveResult)
  {
    if evidence.topic != identity.topic || evidence.messageId != identity.messageId
       || evidence.payloadSha != identity.payloadSha then (t, ResolveRejected(EvidenceMismatch))
    else if evidence.matches == 0 then (t, NoMatch)
    else if evidence.matches > 1 then (t, MultipleMatches)
    else if identity.id !in t.rows then (t, ResolveRejected(NotFound))
    else
      var r := t.rows[identity.id];
      if !MatchesIdentity(r, identity) then (t, ResolveRejected(IdentityMismatch))
      else if !PayloadMatches(r.payload, identity) then (t, ResolveRejected(PayloadHashMismatch))
      else if !AuditMatches(t, identity, r.payload) then (t, ResolveRejected(AuditMismatch))
      else if r.reconciliationId != Some(reconciliationId) then (t, ResolveRejected(ReconciliationIdMismatch))
      else if r.state == Acknowledged then
        if r.publishedAt.None? || !Unheld(r) then (t, ResolveRejected(InconsistentPublishedState))
        else if !SameResolution(r, identity, reconciliationId, evidence) then (t, ResolveRejected(EvidenceMismatch))
        else (t, AlreadyResolved(r.publishedAt.value))
      else if r.state != OutcomeUnknown then (t, ResolveRejected(ReconciliationNotUnknown))
      else if r.publishedAt.Some? || !Unheld(r) then (t, ResolveRejected(InconsistentPublishedState))
      else if !MetadataValid(r) then (t, ResolveRejected(QuarantineMetadataInvalid))
      else if !fits then (t, ResolveRejected(EvidenceTooLarge))
      else
        (Put(t, identity.id,
             ResolvedRow(r, Resolution(reconciliationId, identity, evidence, r.lastError.value), t.now)),
         Resolved(t.now))
  }

  // ---- What every transaction keeps ----------------------------------------------------

  ghost predicate SameColumns(a: Row, b: Row) {
    && a.producer == b.producer && a.messageId == b.messageId && a.topic == b.topic && a.payload == b.payload
    && (a.payloadSha.Some? ==> b.payloadSha == a.payloadSha)
  }

  /** The row is untouched, except that a missing fingerprint may have been filled in. */
  ghost predicate Frozen(a: Row, b: Row) {
    SameColumns(a, b) && b == a.(payloadSha := b.payloadSha)
  }

  function Rank(s: Reconciliation): nat {
    match s case Clear => 0 case Publishing => 1 case OutcomeUnknown => 2 case Acknowledged => 3
  }

  ghost predicate RowEvolves(a: Row, b: Row) {
    && SameColumns(a, b)
    && Rank(a.state) <= Rank(b.state)
    && (a.publishedAt.Some? ==> b.publishedAt == a.publishedAt)
    && (a.state == Acknowledged ==> Frozen(a, b))
  }

  /** One or more transactions may lead from `t` to `u`: nothing is deleted, immutable columns
      stay, no row falls back in rank, only `touched` rows become published, and every row
      already out of NONE is frozen unless it is one of them. */
  ghost predicate Evolves(t: Table, u: Table, touched: set<nat>) {
    && t.nextId <= u.nextId
    && (forall id :: id in t.rows ==> id in u.rows && RowEvolves(t.rows[id], u.rows[id]))
    && (forall id :: id in t.rows && t.rows[id].state != Clear && id !in touched ==>
          Frozen(t.rows[id], u.rows[id]))
    && (forall id :: id in t.rows && id !in touched ==> u.rows[id].publishedAt == t.rows[id].publishedAt)
    && (forall id :: id in u.rows && id !in t.rows ==> t.nextId <= id < u.nextId)
  }

  /** A row inserted by this one transaction starts clear and unpublished. */
  ghost predicate FreshRows(t: Table, u: Table) {
    forall id :: id in u.rows && id !in t.rows ==> u.rows[id].state == Clear && !Settled(u.rows[id])
  }

  ghost predicate KeepsSettled(t: Table, u: Table) {
    forall id :: id in t.rows && Settled(t.rows[id]) ==> id in u.rows && Settled(u.rows[id])
  }

  ghost predicate TableOk(t: Table) {
    forall id :: id in t.rows ==> id < t.nextId
  }

  // ---- Lemmas about single transactions -------------------------------------------------

  /** Only the head of a producer's queue can be claimed, so at most one row is ever eligible. */
  lemma CandidateIsUnique(t: Table, producer: string, a: nat, b: nat)
    requires Candidate(t, producer, a) && Candidate(t, producer, b)
    ensures a == b
  {
  }

  /** `fail_outbox` keeps every settled row settled exactly when it does not hit a dead-lettered
      row that still has this worker's lease and attempts below the limit. */
  lemma FailOutboxKeepsSettledIff(t: Table, id: nat, worker: string, error: string, retryAfter: int, maxAttempts: nat)
    ensures KeepsSettled(t, FailOutbox(t, id, worker, error, retryAfter, maxAttempts).0)
            <==> !(Failable(t, id, worker) && t.rows[id].deadLetteredAt.Some? && t.rows[id].attempts < maxAttempts)
  {
    var u := FailOutbox(t, id, worker, error, retryAfter, maxAttempts).0;
    if Failable(t, id, worker) && t.rows[id].deadLetteredAt.Some? && t.rows[id].attempts < maxAttempts {
      assert Settled(t.rows[id]) && !Settled(u.rows[id]);
    }
  }

  /** One transaction's effect on the whole table. */
  ghost predicate Steps(t: Table, u: Table, touched: set<nat>) {
    Evolves(t, u, touched) && FreshRows(t, u) && TableOk(u)
  }

  lemma PutSteps(t: Table, id: nat, r: Row, touched: set<nat>)
    requires TableOk(t) && id in t.rows && RowEvolves(t.rows[id], r)
    requires t.rows[id].state != Clear && id !in touched ==> Frozen(t.rows[id], r)
    requires id !in touched ==> r.publishedAt == t.rows[id].publishedAt
    ensures Steps(t, Put(t, id, r), touched)
    ensures (Settled(t.rows[id]) ==> Settled(r)) ==> KeepsSettled(t, Put(t, id, r))
  {
  }

  lemma EnqueueSteps(t: Table, id: nat, messageId: string, topic: string, payload: Payload, sha: Digest, producer: string)
    requires TableOk(t) && EnqueueIdOk(t, id, messageId)
    ensures var u := Enqueue(t, id, messageId, topic, payload, sha, producer).0;
            Steps(t, u, {}) && KeepsSettled(t, u)
  {
    if HasMessage(t, messageId) && t.rows[id].payloadSha.None? {
      PutSteps(t, id, t.rows[id].(payloadSha := Some(sha)), {});
    }
  }

  lemma ClaimExactSteps(t: Table, identity: Identity, rule: LeaseRule, rid: string, lease: int)
    requires TableOk(t)
    ensures var u := ClaimExact(t, identity, rule, rid, lease).0; Steps(t, u, {}) && KeepsSettled(t, u)
  {
    if ValidateExact(t, identity, rule, true).None? {
      PutSteps(t, identity.id, ClaimedRow(t.rows[identity.id], rid, lease, rid, t.now), {});
    }
  }

  lemma MarkPublishedSteps(t: Table, c: Claim)
    requires TableOk(t)
    ensures var u := MarkPublished(t, c).0; Steps(t, u, {c.id}) && KeepsSettled(t, u)
  {
    if Carries(t, c) {
      PutSteps(t, c.id, PublishedRow(t.rows[c.id], t.now), {c.id});
    }
  }

  lemma MarkUnknownSteps(t: Table, c: Claim, note: Note)
    requires TableOk(t)
    ensures var u := MarkUnknown(t, c, note).0; Steps(t, u, {c.id}) && KeepsSettled(t, u)
  {
    if Carries(t, c) {
      PutSteps(t, c.id, UnknownRow(t.rows[c.id], note, t.now), {c.id});
    }
  }

  lemma FailSteps(t: Table, id: nat, worker: string, error: string, retryAfter: int, maxAttempts: nat)
    requires TableOk(t)
    ensures Steps(t, FailOutbox(t, id, worker, error, retryAfter, maxAttempts).0, {})
    ensures !(Failable(t, id, worker) && t.rows[id].deadLetteredAt.Some? && t.rows[id].attempts < maxAttempts)
            ==> KeepsSettled(t, FailOutbox(t, id, worker, error, retryAfter, maxAttempts).0)
  {
    if Failable(t, id, worker) {
      PutSteps(t, id, FailedRow(t.rows[id], error, retryAfter, maxAttempts, t.now), {});
    }
  }

  lemma QuarantineShape(t: Table, identity: Identity, lease: ExpiredLease, rid: string, reason: string)
    ensures var (u, result) := Quarantine(t, identity, lease, rid, reason);
            if result.Quarantined? then
              && identity.id in t.rows && t.rows[identity.id].state == Clear && t.rows[identity.id].publishedAt.None?
              && t.rows[identity.id].deadLetteredAt.None?
              && u == Put(t, identity.id, QuarantinedRow(t.rows[identity.id], rid, QuarantineNote(reason, lease), t.now))
            else u == t
  {
  }

  lemma QuarantineSteps(t: Table, identity: Identity, lease: ExpiredLease, rid: string, reason: string)
    requires TableOk(t)
    ensures var u := Quarantine(t, identity, lease, rid, reason).0; Steps(t, u, {}) && KeepsSettled(t, u)
  {
    QuarantineShape(t, identity, lease, rid, reason);
    if Quarantine(t, identity, lease, rid, reason).1.Quarantined? {
      PutSteps(t, identity.id, QuarantinedRow(t.rows[identity.id], rid, QuarantineNote(reason, lease), t.now), {});
    } else {
      EvolvesRefl(t, {});
    }
  }

  lemma ResolveSteps(t: Table, identity: Identity, rid: string, evidence: Evidence, fits: bool)
    requires TableOk(t)
    ensures var u := Resolve(t, identity, rid, evidence, fits).0;
            Steps(t, u, if identity.id in t.rows && t.rows[identity.id].state == OutcomeUnknown then {identity.id} else {})
            && KeepsSettled(t, u)
  {
    if Resolve(t, identity, rid, evidence, fits).1.Resolved? {
      var r := t.rows[identity.id];
      PutSteps(t, identity.id, ResolvedRow(r, Resolution(rid, identity, evidence, r.lastError.value), t.now), {identity.id});
    }
  }

  lemma EvolvesRefl(t: Table, touched: set<nat>)
    ensures Evolves(t, t, touched) && KeepsSettled(t, t)
  {
  }

  lemma EvolvesTrans(t: Table, u: Table, v: Table, a: set<nat>, b: set<nat>)
    requires Evolves(t, u, a) && Evolves(u, v, b)
    ensures Evolves(t, v, a + b)
  {
    forall id | id in t.rows
      ensures id in v.rows && RowEvolves(t.rows[id], v.rows[id])
    {
      assert RowEvolves(t.rows[id], u.rows[id]) && RowEvolves(u.rows[id], v.rows[id]);
    }
    forall id | id in t.rows && t.rows[id].state != Clear && id !in a + b
      ensures Frozen(t.rows[id], v.rows[id])
    {
      assert Frozen(t.rows[id], u.rows[id]) && Frozen(u.rows[id], v.rows[id]);
    }
    forall id | id in v.rows && id !in t.rows
      ensures t.nextId <= id < v.nextId
    {
      if id in u.rows {
      }
    }
  }
}
