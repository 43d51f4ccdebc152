/** Every interleaving of producers, dispatchers, offline drains, expired-row reconciliations,
    quarantines and Redis resolutions over one outbox (repository.py, runtime.py,
    offline_outbox_drain.py, offline_outbox_reconciler.py).

    A holder is one process between its claim and its acknowledgement.  The gaps between claim,
    send and acknowledgement are separate steps, so a run can stall, crash or lose the database
    in any of them. */
module OutboxProtocol {
  import opened Common
  import opened OutboxTable

  /** How far a claim's holder has got: about to send, handed to the transport without an
      error, or obliged to mark the outcome unknown. */
  datatype Phase = Ready | Handed | Broken

  datatype Held = Held(claim: Claim, phase: Phase)

  datatype Message = Message(id: nat, producer: string, topic: string, payload: Payload)

  /** `sent` is the trace of calls into the transport; `resolved` the rows an operator closed
      from positive Redis evidence. */
  datatype World = World(t: Table, held: map<nat, Held>, sent: seq<Message>, resolved: set<nat>)

  /** A database call can succeed, fail before its commit, or commit and lose the answer. */
  datatype Fault = Clean | LostBefore | LostAfter

  datatype Step =
    | Tick(now: int)
    | Publish(id: nat, messageId: string, topic: string, payload: Payload, sha: Digest, producer: string)
    | Audit(messageId: string, entry: AuditRow)
    | DispatchClaim(holder: nat, id: nat, producer: string, worker: string, lease: int, reconciliationId: string)
    | ExactClaim(holder: nat, identity: Identity, rule: LeaseRule, reconciliationId: string, lease: int)
    | Send(holder: nat, returned: bool)
    | Ack(holder: nat, fault: Fault)
    | GiveUp(holder: nat, note: Note, fault: Fault)
    | Crash(holder: nat)
    | Fail(id: nat, worker: string, error: string, retryAfter: int, maxAttempts: nat)
    | QuarantineExpired(identity: Identity, expired: ExpiredLease, reconciliationId: string, reason: string)
    | ResolveUnknown(identity: Identity, reconciliationId: string, evidence: Evidence, fits: bool)

  /** The dispatcher recomputes the fingerprint of what it is about to send; the offline tools
      validated it inside their claim. */
  predicate HashOk(c: Claim) {
    c.offline || (c.payload.Object? && c.payloadSha == Some(Sha256(c.payload)))
  }

  function MessageOf(c: Claim): Message {
    Message(c.id, c.producer, c.topic, c.payload)
  }

  function Drop(held: map<nat, Held>, holder: nat): map<nat, Held> {
    held - {holder}
  }

  function AfterSend(w: World, holder: nat, returned: bool): World
    requires holder in w.held
  {
    var c := w.held[holder].claim;
    if !HashOk(c) then w.(held := w.held[holder := Held(c, Broken)])
    else w.(held := w.held[holder := Held(c, if returned then Handed else Broken)], sent := w.sent + [MessageOf(c)])
  }

  function AfterAck(w: World, holder: nat, fault: Fault): World
    requires holder in w.held
  {
    var c := w.held[holder].claim;
    var (u, applied) := if fault == LostBefore then (w.t, false) else MarkPublished(w.t, c);
    w.(t := u,
       held := if fault == Clean && applied then Drop(w.held, holder) else w.held[holder := Held(c, Broken)])
  }

  function AfterGiveUp(w: World, holder: nat, note: Note, fault: Fault): World
    requires holder in w.held
  {
    w.(t := if fault == LostBefore then w.t else MarkUnknown(w.t, w.held[holder].claim, note).0,
       held := Drop(w.held, holder))
  }

  /** One step; a step whose guard does not hold changes nothing. */
  function Next(w: World, s: Step): World {
    match s
    case Tick(now) => if w.t.now <= now then w.(t := w.t.(now := now)) else w
    case Publish(id, messageId, topic, payload, sha, producer) =>
      if EnqueueIdOk(w.t, id, messageId) then w.(t := Enqueue(w.t, id, messageId, topic, payload, sha, producer).0) else w
    case Audit(messageId, entry) => w.(t := AppendAudit(w.t, messageId, entry))
    case DispatchClaim(holder, id, producer, worker, lease, rid) =>
      if holder in w.held || !Candidate(w.t, producer, id) then w
      else
        w.(t := Put(w.t, id, ClaimedRow(w.t.rows[id], worker, lease, rid, w.t.now)),
           held := w.held[holder := Held(RecordOf(w.t.rows[id], id, worker, rid), Ready)])
    case ExactClaim(holder, identity, rule, rid, lease) =>
      if holder in w.held || rule == Ignored then w
      else
        var (u, r) := ClaimExact(w.t, identity, rule, rid, lease);
        if r.Ok? then w.(t := u, held := w.held[holder := Held(r.value, Ready)]) else w
    case Send(holder, returned) =>
      if holder in w.held && w.held[holder].phase == Ready then AfterSend(w, holder, returned) else w
    case Ack(holder, fault) =>
      if holder in w.held && w.held[holder].phase == Handed then AfterAck(w, holder, fault) else w
    case GiveUp(holder, note, fault) =>
      if holder in w.held && w.held[holder].phase == Broken then AfterGiveUp(w, holder, note, fault) else w
    case Crash(holder) => w.(held := Drop(w.held, holder))
    case Fail(id, worker, error, retryAfter, maxAttempts) =>
      w.(t := FailOutbox(w.t, id, worker, error, retryAfter, maxAttempts).0)
    case QuarantineExpired(identity, expired, rid, reason) =>
      w.(t := Quarantine(w.t, identity, expired, rid, reason).0)
    case ResolveUnknown(identity, rid, evidence, fits) =>
      var (u, r) := Resolve(w.t, identity, rid, evidence, fits);
      w.(t := u, resolved := if r.Resolved? then w.resolved + {identity.id} else w.resolved)
  }

  function Run(w: World, steps: seq<Step>): World
    decreases |steps|
  {
    if steps == [] then w else Run(Next(w, steps[0]), steps[1..])
  }

  /** Any table, including rows left by older code; nobody holds a claim yet. */
  ghost predicate Initial(w: World) {
    TableOk(w.t) && w.held == map[] && w.sent == [] && w.resolved == {}
  }

  // ---- At most one send -----------------------------------------------------------------

  ghost predicate WasSent(sent: seq<Message>, id: nat) {
    exists i :: 0 <= i < |sent| && sent[i].id == id
  }

  /** A claim not yet acknowledged or given up is still written in its row. */
  ghost predicate ClaimStands(t: Table, h: Held) {
    && h.claim.id in t.rows
    && t.rows[h.claim.id].state != Clear
    && (h.phase != Broken ==>
          && t.rows[h.claim.id].state == Publishing
          && !Settled(t.rows[h.claim.id])
          && (h.claim.payloadSha.Some? ==> Carries(t, h.claim)))
    && (HashOk(h.claim) ==> h.claim.payloadSha == Some(Sha256(h.claim.payload)))
    && h.claim.producer == t.rows[h.claim.id].producer
    && h.claim.topic == t.rows[h.claim.id].topic
    && h.claim.payload == t.rows[h.claim.id].payload
    && (h.phase == Handed ==> HashOk(h.claim))
  }

  ghost predicate SentOk(t: Table, m: Message) {
    && m.id in t.rows
    && t.rows[m.id].state != Clear
    && m == Message(m.id, t.rows[m.id].producer, t.rows[m.id].topic, t.rows[m.id].payload)
  }

  ghost predicate HeldOk(t: Table, held: map<nat, Held>) {
    && (forall k :: k in held ==> ClaimStands(t, held[k]))
    && (forall j, k :: j in held && k in held && j != k ==> held[j].claim.id != held[k].claim.id)
  }

  ghost predicate ReadyIsUnsent(held: map<nat, Held>, sent: seq<Message>) {
    forall k :: k in held && held[k].phase == Ready ==> !WasSent(sent, held[k].claim.id)
  }

  ghost predicate TraceOk(t: Table, sent: seq<Message>) {
    && (forall i :: 0 <= i < |sent| ==> SentOk(t, sent[i]))
    && (forall i, j :: 0 <= i < j < |sent| ==> sent[i].id != sent[j].id)
  }

  ghost predicate Safe(w: World) {
    TableOk(w.t) && HeldOk(w.t, w.held) && ReadyIsUnsent(w.held, w.sent) && TraceOk(w.t, w.sent)
  }

  /** The one row whose settled outcome this step may still change. */
  ghost function Touched(w: World, s: Step): set<nat> {
    match s
    case Ack(holder, _) => if holder in w.held && w.held[holder].phase == Handed then {w.held[holder].claim.id} else {}
    case GiveUp(holder, _, _) => if holder in w.held && w.held[holder].phase == Broken then {w.held[holder].claim.id} else {}
    case ResolveUnknown(identity, _, _, _) =>
      if identity.id in w.t.rows && w.t.rows[identity.id].state == OutcomeUnknown then {identity.id} else {}
    case _ => {}
  }

  /** A failure report that takes back a dead letter. */
  ghost predicate Revives(w: World, s: Step) {
    s.Fail? && Failable(w.t, s.id, s.worker) && w.t.rows[s.id].deadLetteredAt.Some? && w.t.rows[s.id].attempts < s.maxAttempts
  }

  lemma ClaimStepEvolves(w: World, s: Step)
    requires TableOk(w.t) && (s.DispatchClaim? || s.ExactClaim?)
    ensures Steps(w.t, Next(w, s).t, {}) && KeepsSettled(w.t, Next(w, s).t)
  {
    if s.ExactClaim? {
      ClaimExactSteps(w.t, s.identity, s.rule, s.reconciliationId, s.lease);
    } else if s.id in w.t.rows && w.t.rows[s.id].state == Clear {
      PutSteps(w.t, s.id, ClaimedRow(w.t.rows[s.id], s.worker, s.lease, s.reconciliationId, w.t.now), {});
    }
  }

  lemma AckEvolves(w: World, holder: nat, fault: Fault)
    requires TableOk(w.t) && holder in w.held
    ensures Steps(w.t, AfterAck(w, holder, fault).t, {w.held[holder].claim.id}) && KeepsSettled(w.t, AfterAck(w, holder, fault).t)
  {
    MarkPublishedSteps(w.t, w.held[holder].claim);
    EvolvesRefl(w.t, {w.held[holder].claim.id});
  }

  lemma GiveUpEvolves(w: World, holder: nat, note: Note, fault: Fault)
    requires TableOk(w.t) && holder in w.held
    ensures var u := AfterGiveUp(w, holder, note, fault).t;
            Steps(w.t, u, {w.held[holder].claim.id}) && KeepsSettled(w.t, u)
  {
    MarkUnknownSteps(w.t, w.held[holder].claim, note);
    EvolvesRefl(w.t, {w.held[holder].claim.id});
  }

  lemma OutcomeStepEvolves(w: World, s: Step)
    requires TableOk(w.t) && (s.Ack? || s.GiveUp?)
    ensures Steps(w.t, Next(w, s).t, Touched(w, s)) && KeepsSettled(w.t, Next(w, s).t)
  {
    if s.holder in w.held {
      if s.Ack? {
        AckEvolves(w, s.holder, s.fault);
      } else {
        GiveUpEvolves(w, s.holder, s.note, s.fault);
      }
    }
  }

  /** What any single step does to the table. */
  lemma StepEvolves(w: World, s: Step)
    requires TableOk(w.t)
    ensures Steps(w.t, Next(w, s).t, Touched(w, s))
    ensures !Revives(w, s) ==> KeepsSettled(w.t, Next(w, s).t)
  {
    match s
    case Publish(id, messageId, topic, payload, sha, producer) =>
      if EnqueueIdOk(w.t, id, messageId) {
        EnqueueSteps(w.t, id, messageId, topic, payload, sha, producer);
      }
    case DispatchClaim(_, _, _, _, _, _) => ClaimStepEvolves(w, s);
    case ExactClaim(_, _, _, _, _) => ClaimStepEvolves(w, s);
    case Ack(_, _) => OutcomeStepEvolves(w, s);
    case GiveUp(_, _, _) => OutcomeStepEvolves(w, s);
    case Fail(id, worker, error, retryAfter, maxAttempts) => FailSteps(w.t, id, worker, error, retryAfter, maxAttempts);
    case QuarantineExpired(identity, expired, rid, reason) => QuarantineSteps(w.t, identity, expired, rid, reason);
    case ResolveUnknown(identity, rid, evidence, fits) => ResolveSteps(w.t, identity, rid, evidence, fits);
    case _ =>
  }

  /** A claim survives every transaction on other rows, and on its own row once it is broken. */
  lemma ClaimStandsKept(t: Table, u: Table, h: Held, touched: set<nat>)
    requires ClaimStands(t, h) && Evolves(t, u, touched) && (h.claim.id in touched ==> h.phase == Broken)
    ensures ClaimStands(u, h)
  {
    assert RowEvolves(t.rows[h.claim.id], u.rows[h.claim.id]);
    if h.phase != Broken {
      assert Frozen(t.rows[h.claim.id], u.rows[h.claim.id]);
    }
  }

  lemma TraceKept(t: Table, u: Table, sent: seq<Message>, touched: set<nat>)
    requires TraceOk(t, sent) && Evolves(t, u, touched)
    ensures TraceOk(u, sent)
  {
    forall i | 0 <= i < |sent|
      ensures SentOk(u, sent[i])
    {
      assert RowEvolves(t.rows[sent[i].id], u.rows[sent[i].id]);
    }
  }

  /** Holders that only broke or were forgotten. */
  ghost predicate Weakened(held: map<nat, Held>, later: map<nat, Held>) {
    forall k :: k in later ==> k in held && (later[k] == held[k] || later[k] == Held(held[k].claim, Broken))
  }

  lemma BrokenStands(t: Table, h: Held)
    requires ClaimStands(t, h)
    ensures ClaimStands(t, Held(h.claim, Broken))
  {
  }

  lemma HeldKept(t: Table, u: Table, held: map<nat, Held>, later: map<nat, Held>, touched: set<nat>)
    requires HeldOk(t, held) && Evolves(t, u, touched) && Weakened(held, later)
    requires forall k :: k in later && later[k].claim.id in touched ==> later[k].phase == Broken
    ensures HeldOk(u, later)
  {
    forall k | k in later
      ensures ClaimStands(u, later[k])
    {
      BrokenStands(t, held[k]);
      ClaimStandsKept(t, u, later[k], touched);
    }
  }

  /** A step that only moves the table, and perhaps forgets or breaks holders, keeps safety. */
  lemma SafePassive(w: World, v: World, touched: set<nat>)
    requires Safe(w) && TableOk(v.t) && Evolves(w.t, v.t, touched) && v.sent == w.sent && Weakened(w.held, v.held)
    requires forall k :: k in v.held && v.held[k].claim.id in touched ==> v.held[k].phase == Broken
    ensures Safe(v)
  {
    HeldKept(w.t, v.t, w.held, v.held, touched);
    TraceKept(w.t, v.t, v.sent, touched);
  }

  /** A claim takes a row nobody holds and nobody has sent. */
  lemma SafeClaim(w: World, holder: nat, c: Claim, u: Table)
    requires Safe(w) && holder !in w.held && TableOk(u) && Evolves(w.t, u, {})
    requires c.id in w.t.rows && w.t.rows[c.id].state == Clear && ClaimStands(u, Held(c, Ready))
    ensures Safe(w.(t := u, held := w.held[holder := Held(c, Ready)]))
  {
    HeldKept(w.t, u, w.held, w.held, {});
    TraceKept(w.t, u, w.sent, {});
    ClearIsFree(w, c.id);
  }

  lemma ClearIsFree(w: World, id: nat)
    requires Safe(w) && id in w.t.rows && w.t.rows[id].state == Clear
    ensures !WasSent(w.sent, id) && forall k :: k in w.held ==> w.held[k].claim.id != id
  {
    forall k | k in w.held
      ensures w.held[k].claim.id != id
    {
      assert ClaimStands(w.t, w.held[k]);
    }
    forall i | 0 <= i < |w.sent|
      ensures w.sent[i].id != id
    {
      assert SentOk(w.t, w.sent[i]);
    }
  }

  lemma SafeSend(w: World, holder: nat, returned: bool)
    requires Safe(w) && holder in w.held && w.held[holder].phase == Ready
    ensures Safe(AfterSend(w, holder, returned))
  {
    var c := w.held[holder].claim;
    assert ClaimStands(w.t, w.held[holder]) && !WasSent(w.sent, c.id);
    if HashOk(c) {
      var held := w.held[holder := Held(c, if returned then Handed else Broken)];
      forall k | k in held && held[k].phase == Ready
        ensures !WasSent(w.sent + [MessageOf(c)], held[k].claim.id)
      {
        assert k != holder && !WasSent(w.sent, held[k].claim.id);
      }
      assert forall i :: 0 <= i < |w.sent| ==> w.sent[i].id != c.id;
    } else {
      SafePassive(w, AfterSend(w, holder, returned), {});
    }
  }

  lemma SafeDispatchClaim(w: World, s: Step)
    requires Safe(w) && s.DispatchClaim? && s.holder !in w.held && Candidate(w.t, s.producer, s.id)
    ensures Safe(Next(w, s))
  {
    StepEvolves(w, s);
    SafeClaim(w, s.holder, RecordOf(w.t.rows[s.id], s.id, s.worker, s.reconciliationId), Next(w, s).t);
  }

  lemma SafeExactClaim(w: World, s: Step)
    requires Safe(w) && s.ExactClaim? && s.holder !in w.held
    requires ClaimExact(w.t, s.identity, s.rule, s.reconciliationId, s.lease).1.Ok?
    requires s.rule != Ignored
    ensures Safe(Next(w, s))
  {
    ClaimExactSteps(w.t, s.identity, s.rule, s.reconciliationId, s.lease);
    SafeClaim(w, s.holder, OfflineClaimOf(w.t.rows[s.identity.id], s.identity, s.reconciliationId), Next(w, s).t);
  }

  /** Apart from claims and sends, a step keeps the trace and at most breaks or forgets a holder. */
  lemma TransactionWeakens(w: World, s: Step)
    requires !s.DispatchClaim? && !s.ExactClaim? && !s.Send?
    ensures Next(w, s).sent == w.sent && Weakened(w.held, Next(w, s).held)
  {
  }

  /** The holder of a touched row ends broken or gone. */
  lemma TransactionBreaks(w: World, s: Step, k: nat)
    requires Safe(w) && !s.DispatchClaim? && !s.ExactClaim? && !s.Send?
    requires k in Next(w, s).held && k in w.held && Next(w, s).held[k].claim == w.held[k].claim && w.held[k].claim.id in Touched(w, s)
    ensures Next(w, s).held[k].phase == Broken
  {
    if s.ResolveUnknown? {
      assert ClaimStands(w.t, w.held[k]);
    }
  }

  lemma TransactionShape(w: World, s: Step)
    requires Safe(w) && !s.DispatchClaim? && !s.ExactClaim? && !s.Send?
    ensures var v := Next(w, s);
            && v.sent == w.sent && Weakened(w.held, v.held)
            && (forall k :: k in v.held && v.held[k].claim.id in Touched(w, s) ==> v.held[k].phase == Broken)
  {
    TransactionWeakens(w, s);
    forall k | k in Next(w, s).held && Next(w, s).held[k].claim.id in Touched(w, s)
      ensures Next(w, s).held[k].phase == Broken
    {
      TransactionBreaks(w, s, k);
    }
  }

  lemma SafeTransaction(w: World, s: Step)
    requires Safe(w) && !s.DispatchClaim? && !s.ExactClaim? && !s.Send?
    ensures Safe(Next(w, s))
  {
    StepEvolves(w, s);
    TransactionShape(w, s);
    SafePassive(w, Next(w, s), Touched(w, s));
  }

  lemma SafeStep(w: World, s: Step)
    requires Safe(w)
    ensures Safe(Next(w, s))
  {
    match s
    case DispatchClaim(holder, id, producer, _, _, _) =>
      if holder !in w.held && Candidate(w.t, producer, id) {
        SafeDispatchClaim(w, s);
      }
    case ExactClaim(holder, identity, rule, rid, lease) =>
      if holder !in w.held && rule != Ignored && ClaimExact(w.t, identity, rule, rid, lease).1.Ok? {
        SafeExactClaim(w, s);
      }
    case Send(holder, returned) =>
      if holder in w.held && w.held[holder].phase == Ready {
        SafeSend(w, holder, returned);
      }
    case _ => SafeTransaction(w, s);
  }

  lemma {:induction false} SafeRun(w: World, steps: seq<Step>)
    requires Safe(w)
    ensures Safe(Run(w, steps))
    decreases |steps|
  {
    if steps != [] {
      SafeStep(w, steps[0]);
      SafeRun(Next(w, steps[0]), steps[1..]);
    }
  }

  /** Every interleaving hands each row to the transport at most once, with exactly the stored
      topic and payload, and never leaves a sent row claimable. */
  lemma AtMostOneSend(w: World, steps: seq<Step>)
    requires Initial(w)
    ensures var v := Run(w, steps);
            && (forall i, j :: 0 <= i < j < |v.sent| ==> v.sent[i].id != v.sent[j].id)
            && (forall i :: 0 <= i < |v.sent| ==> SentOk(v.t, v.sent[i]))
  {
    SafeRun(w, steps);
  }
}
