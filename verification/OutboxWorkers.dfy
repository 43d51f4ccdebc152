/** The three programs that hand rows to the transport: the dispatcher loop of runtime.py and the
    two one-row tools offline_outbox_drain.py and offline_outbox_reconciler.py.

    Between any two of a program's own calls, other processes take arbitrary steps (`others`).
    Each program is proved to be a run of the outbox protocol, so every result about runs holds
    for it under interference, and its answer is tied to what really happened to the row. */
module OutboxWorkers {
  import opened Common
  import opened OutboxTable
  import opened OutboxProtocol
  import opened OutboxHistory
  import opened OutboxRepository

  /** One turn of the dispatcher loop. */
  datatype Round = Idle | Published(id: nat) | FailedClosed(id: nat, reason: Failure)

  datatype Failure = HashMismatch | PublisherFailed | AckFailed

  function Reason(f: Failure): Note {
    Text(match f
         case HashMismatch => "PRE_PUBLISH_HASH_MISMATCH"
         case PublisherFailed => "PUBLISH_EXCEPTION"
         case AckFailed => "ACK_EXCEPTION")
  }

  datatype Outcome =
    | ClaimRejected(why: Rejection)
    | PublishAcknowledged
    | PublishOutcomeUnknown(quarantined: bool, failure: Failure)

  /** What the transport and the database connection do to one attempt, and what the other
      processes do in its gaps. */
  datatype Weather = Weather(
    returned: bool, ackFault: Fault, markFault: Fault,
    beforeSend: seq<Step>, beforeAck: seq<Step>, beforeMark: seq<Step>)

  /** A step taken by somebody else. */
  predicate Foreign(s: Step, me: nat) {
    match s
    case DispatchClaim(holder, _, _, _, _, _) => holder != me
    case ExactClaim(holder, _, _, _, _) => holder != me
    case Send(holder, _) => holder != me
    case Ack(holder, _) => holder != me
    case GiveUp(holder, _, _) => holder != me
    case Crash(holder) => holder != me
    case _ => true
  }

  predicate AllForeign(steps: seq<Step>, me: nat) {
    forall i :: 0 <= i < |steps| ==> Foreign(steps[i], me)
  }

  predicate Calm(y: Weather, me: nat) {
    AllForeign(y.beforeSend, me) && AllForeign(y.beforeAck, me) && AllForeign(y.beforeMark, me)
  }

  lemma {:induction false} RunAppend(w: World, a: seq<Step>, b: seq<Step>)
    ensures Run(w, a + b) == Run(Run(w, a), b)
    decreases |a|
  {
    if a == [] {
      assert a + b == b;
    } else {
      assert (a + b)[0] == a[0] && (a + b)[1..] == a[1..] + b;
      RunAppend(Next(w, a[0]), a[1..], b);
    }
  }

  lemma RunSnoc(w: World, a: seq<Step>, s: Step)
    ensures Run(w, a + [s]) == Next(Run(w, a), s)
  {
    RunAppend(w, a, [s]);
    RunOne(Run(w, a), s, []);
    assert [s] + [] == [s];
  }

  /** Nobody else moves my claim along. */
  lemma {:induction false} ForeignKeepsMine(w: World, steps: seq<Step>, me: nat)
    requires AllForeign(steps, me)
    ensures var v := Run(w, steps);
            (me in v.held <==> me in w.held) && (me in w.held ==> v.held[me] == w.held[me]) && w.sent <= v.sent
    decreases |steps|
  {
    if steps != [] {
      var v := Next(w, steps[0]);
      ForeignStep(w, steps[0], me);
      ForeignKeepsMine(v, steps[1..], me);
    }
  }

  lemma {:induction false} TraceOnlyGrows(w: World, steps: seq<Step>)
    ensures w.sent <= Run(w, steps).sent
    decreases |steps|
  {
    if steps != [] {
      TraceGrows(w, steps[0]);
      TraceOnlyGrows(Next(w, steps[0]), steps[1..]);
    }
  }

  lemma SentRowsExist(w: World, id: nat)
    requires Safe(w) && WasSent(w.sent, id)
    ensures id in w.t.rows && w.t.rows[id].state != Clear
  {
    var i :| 0 <= i < |w.sent| && w.sent[i].id == id;
    assert SentOk(w.t, w.sent[i]);
  }

  lemma ForeignStep(w: World, s: Step, me: nat)
    requires Foreign(s, me)
    ensures var v := Next(w, s);
            (me in v.held <==> me in w.held) && (me in w.held ==> v.held[me] == w.held[me]) && w.sent <= v.sent
  {
  }

  class Deployment {
    const repo: AuditRepository
    var held: map<nat, Held>
    ghost var sent: seq<Message>
    ghost var resolved: set<nat>

    ghost function Now(): World
      reads this, repo
    {
      World(repo.View(), held, sent, resolved)
    }

    constructor (repo: AuditRepository)
      ensures this.repo == repo && Now() == World(repo.View(), map[], [], {})
    {
      this.repo := repo;
      held, sent, resolved := map[], [], {};
    }

    /** Hand a claim's message to the transport. */
    method Transmit(holder: nat, returned: bool)
      requires holder in held && held[holder].phase == Ready
      modifies this
      ensures Now() == AfterSend(old(Now()), holder, returned)
    {
      var c := held[holder].claim;
      if HashOk(c) {
        sent := sent + [MessageOf(c)];
        held := held[holder := Held(c, if returned then Handed else Broken)];
      } else {
        held := held[holder := Held(c, Broken)];
      }
    }

    /** The acknowledging UPDATE, with a connection that may fail around its commit. */
    method Acknowledge(holder: nat, fault: Fault) returns (confirmed: bool)
      requires holder in held && held[holder].phase == Handed
      modifies this, repo
      ensures Now() == AfterAck(old(Now()), holder, fault)
      ensures confirmed <==> holder !in held
    {
      var c := held[holder].claim;
      var applied := false;
      if fault != LostBefore {
        applied := repo.MarkPublished(c);
      }
      confirmed := fault == Clean && applied;
      held := if confirmed then Drop(held, holder) else held[holder := Held(c, Broken)];
    }

    /** The best-effort unknown marker; the holder is finished whatever happens. */
    method MarkUnknownAndForget(holder: nat, note: Note, fault: Fault) returns (marked: bool)
      requires holder in held && held[holder].phase == Broken
      modifies this, repo
      ensures Now() == AfterGiveUp(old(Now()), holder, note, fault)
      ensures marked <==> fault == Clean && MarkUnknown(old(repo.View()), old(held[holder].claim), note).1
    {
      var applied := false;
      if fault != LostBefore {
        applied := repo.MarkOutcomeUnknown(held[holder].claim, note);
      }
      marked := fault == Clean && applied;
      held := Drop(held, holder);
    }

    method Perform(s: Step)
      modifies this, repo
      ensures Now() == Next(old(Now()), s)
    {
      match s
      case Tick(now) => repo.AdvanceClock(now);
      case Publish(id, messageId, topic, payload, sha, producer) =>
        if EnqueueIdOk(repo.View(), id, messageId) {
          var _ := repo.EnqueueOutbox(id, messageId, topic, payload, sha, producer);
        }
      case Audit(messageId, entry) => repo.AppendPayload(messageId, entry);
      case DispatchClaim(holder, id, producer, worker, lease, rid) =>
        if holder !in held && Candidate(repo.View(), producer, id) {
          ghost var t := repo.View();
          var records := repo.ClaimOutbox(worker, producer, 1, lease, rid);
          CandidateIsUnique(t, producer, id, records[0].id);
          held := held[holder := Held(records[0], Ready)];
        }
      case ExactClaim(holder, identity, rule, rid, lease) =>
        if holder !in held && rule != Ignored {
          var r := repo.ClaimOutboxExact(identity, rule, rid, lease);
          if r.Ok? {
            held := held[holder := Held(r.value, Ready)];
          }
        }
      case Send(holder, returned) =>
        if holder in held && held[holder].phase == Ready {
          Transmit(holder, returned);
        }
      case Ack(holder, fault) =>
        if holder in held && held[holder].phase == Handed {
          var _ := Acknowledge(holder, fault);
        }
      case GiveUp(holder, note, fault) =>
        if holder in held && held[holder].phase == Broken {
          var _ := MarkUnknownAndForget(holder, note, fault);
        }
      case Crash(holder) => held := Drop(held, holder);
      case Fail(id, worker, error, retryAfter, maxAttempts) =>
        var _ := repo.FailOutbox(id, worker, error, retryAfter, maxAttempts);
      case QuarantineExpired(identity, expired, rid, reason) =>
        var _ := repo.QuarantineExpiredExact(identity, expired, rid, reason);
      case ResolveUnknown(identity, rid, evidence, fits) =>
        var r := repo.ResolveUnknownFromRedis(identity, rid, evidence, fits);
        if r.Resolved? {
          resolved := resolved + {identity.id};
        }
    }

    /** Other processes run for a while. */
    method Others(steps: seq<Step>)
      modifies this, repo
      ensures Now() == Run(old(Now()), steps)
    {
      var i := 0;
      while i < |steps|
        invariant 0 <= i <= |steps|
        invariant Run(Now(), steps[i..]) == Run(old(Now()), steps)
      {
        Perform(steps[i]);
        i := i + 1;
      }
    }

    /** One transport call for a claim that passed its fingerprint check. */
    method SendStage(me: nat, y: Weather)
      requires me in held && held[me].phase == Ready && HashOk(held[me].claim) && Safe(Now()) && Calm(y, me)
      modifies this, repo
      ensures Now() == Run(old(Now()), y.beforeSend + [Send(me, y.returned)]) && Safe(Now())
      ensures me in held && held[me] == Held(old(held[me].claim), if y.returned then Handed else Broken)
      ensures WasSent(Now().sent, old(held[me].claim.id))
    {
      ghost var start := Now();
      Others(y.beforeSend);
      ForeignKeepsMine(start, y.beforeSend, me);
      RunSnoc(start, y.beforeSend, Send(me, y.returned));
      Transmit(me, y.returned);
      SafeRun(start, y.beforeSend + [Send(me, y.returned)]);
      assert sent[|sent| - 1].id == held[me].claim.id;
    }

    method AckStage(me: nat, y: Weather) returns (confirmed: bool)
      requires me in held && held[me].phase == Handed && Safe(Now()) && Calm(y, me)
      modifies this, repo
      ensures Now() == Run(old(Now()), y.beforeAck + [Ack(me, y.ackFault)]) && Safe(Now())
      ensures confirmed ==> var id := old(held[me].claim.id);
                            me !in held && id in repo.View().rows && repo.View().rows[id].state == Acknowledged
      ensures !confirmed ==> me in held && held[me] == Held(old(held[me].claim), Broken)
    {
      ghost var start := Now();
      Others(y.beforeAck);
      ForeignKeepsMine(start, y.beforeAck, me);
      RunSnoc(start, y.beforeAck, Ack(me, y.ackFault));
      confirmed := Acknowledge(me, y.ackFault);
      SafeRun(start, y.beforeAck + [Ack(me, y.ackFault)]);
    }

    method MarkStage(me: nat, failure: Failure, y: Weather) returns (marked: bool)
      requires me in held && held[me].phase == Broken && Safe(Now()) && Calm(y, me)
      modifies this, repo
      ensures Now() == Run(old(Now()), y.beforeMark + [GiveUp(me, Reason(failure), y.markFault)]) && Safe(Now())
      ensures me !in held
      ensures marked ==> var id := old(held[me].claim.id);
                         id in repo.View().rows && repo.View().rows[id].state == OutcomeUnknown
    {
      ghost var start := Now();
      Others(y.beforeMark);
      ForeignKeepsMine(start, y.beforeMark, me);
      RunSnoc(start, y.beforeMark, GiveUp(me, Reason(failure), y.markFault));
      marked := MarkUnknownAndForget(me, Reason(failure), y.markFault);
      SafeRun(start, y.beforeMark + [GiveUp(me, Reason(failure), y.markFault)]);
    }

    /** The part of every sender after its claim has committed: one transport call, then an
        acknowledgement or an unknown marker. */
    method PublishClaimed(me: nat, y: Weather) returns (r: Outcome, ghost script: seq<Step>)
      requires me in held && held[me].phase == Ready && HashOk(held[me].claim)
      requires Safe(Now()) && Calm(y, me)
      modifies this, repo
      ensures Now() == Run(old(Now()), script) && Safe(Now()) && me !in held
      ensures var id := old(held[me].claim.id);
              && WasSent(Now().sent, id) && id in repo.View().rows
              && (r == PublishAcknowledged ==> repo.View().rows[id].state == Acknowledged)
              && (r.PublishOutcomeUnknown? && r.quarantined ==> repo.View().rows[id].state == OutcomeUnknown)
      ensures r == PublishAcknowledged || (r.PublishOutcomeUnknown? && r.failure != HashMismatch)
    {
      ghost var start := Now();
      ghost var id := held[me].claim.id;
      SendStage(me, y);
      ghost var mid := Now();
      script := y.beforeSend + [Send(me, y.returned)];
      if y.returned {
        ghost var tail := y.beforeAck + [Ack(me, y.ackFault)];
        var confirmed := AckStage(me, y);
        RunAppend(start, script, tail);
        TraceOnlyGrows(mid, tail);
        WasSentKept(mid, Now(), id);
        script := script + tail;
        if confirmed {
          return PublishAcknowledged, script;
        }
      }
      var failure := if y.returned then AckFailed else PublisherFailed;
      ghost var late := Now();
      ghost var last := y.beforeMark + [GiveUp(me, Reason(failure), y.markFault)];
      var marked := MarkStage(me, failure, y);
      RunAppend(start, script, last);
      TraceOnlyGrows(late, last);
      WasSentKept(late, Now(), id);
      script := script + last;
      SentRowsExist(Now(), id);
      r := PublishOutcomeUnknown(marked, failure);
    }

    /** `drain_exact` (a ready row) and `reconcile` (an expired row): at most one attempt for the
        named row.  A rejection sends nothing; otherwise the row was sent by this call, only
        once, and the answer says in which state its row was left. */
    method PublishExact(me: nat, identity: Identity, rule: LeaseRule, operationId: string, y: Weather)
      returns (r: Outcome, ghost script: seq<Step>)
      requires rule != Ignored && me !in held && Safe(Now()) && Calm(y, me)
      modifies this, repo
      ensures Now() == Run(old(Now()), script) && Safe(Now()) && me !in held
      ensures r.ClaimRejected? <==> ClaimExact(old(repo.View()), identity, rule, operationId, MAX_OFFLINE_LEASE).1.Err?
      ensures r.ClaimRejected? ==> Now() == old(Now())
      ensures !r.ClaimRejected? ==>
                && !WasSent(old(Now()).sent, identity.id) && WasSent(Now().sent, identity.id)
                && identity.id in repo.View().rows
                && (r == PublishAcknowledged ==> repo.View().rows[identity.id].state == Acknowledged)
                && (r.PublishOutcomeUnknown? && r.quarantined ==> repo.View().rows[identity.id].state == OutcomeUnknown)
    {
      ghost var start := Now();
      ghost var claim := ExactClaim(me, identity, rule, operationId, MAX_OFFLINE_LEASE);
      var claimed := repo.ClaimOutboxExact(identity, rule, operationId, MAX_OFFLINE_LEASE);
      if claimed.Err? {
        script := [];
        return ClaimRejected(claimed.error), script;
      }
      held := held[me := Held(claimed.value, Ready)];
      assert Now() == Next(start, claim);
      SafeStep(start, claim);
      ghost var rest;
      r, rest := PublishClaimed(me, y);
      script := [claim] + rest;
      RunOne(start, claim, rest);
    }

    /** One pass of the dispatcher's `while` body. */
    method DispatchRound(me: nat, worker: string, producer: string, limit: nat, lease: int, rid: string, y: Weather)
      returns (r: Round, ghost script: seq<Step>)
      requires me !in held && Safe(Now()) && Calm(y, me)
      modifies this, repo
      ensures Now() == Run(old(Now()), script) && Safe(Now()) && me !in held
      ensures r == Idle ==> Now() == old(Now())
      ensures r.Published? ==> r.id in repo.View().rows && repo.View().rows[r.id].state == Acknowledged
      ensures r != Idle ==>
                && Candidate(old(repo.View()), producer, r.id) && !WasSent(old(Now()).sent, r.id)
                && (WasSent(Now().sent, r.id) <==> r != FailedClosed(r.id, HashMismatch))
    {
      ghost var start := Now();
      var records := repo.ClaimOutbox(worker, producer, limit, lease, rid);
      if records == [] {
        script := [];
        return Idle, script;
      }
      var c := records[0];
      held := held[me := Held(c, Ready)];
      ghost var claim := DispatchClaim(me, c.id, producer, worker, lease, rid);
      assert Now() == Next(start, claim);
      SafeStep(start, claim);
      if HashOk(c) {
        ghost var rest;
        var outcome;
        outcome, rest := PublishClaimed(me, y);
        script := [claim] + rest;
        RunOne(start, claim, rest);
        return if outcome == PublishAcknowledged then Published(c.id) else FailedClosed(c.id, outcome.failure), script;
      }
      ghost var rest := RefuseMismatch(me, y.markFault);
      script := [claim] + rest;
      RunOne(start, claim, rest);
      r := FailedClosed(c.id, HashMismatch);
    }

    /** A claim whose payload does not match its fingerprint is never sent. */
    method RefuseMismatch(me: nat, markFault: Fault) returns (ghost script: seq<Step>)
      requires me in held && held[me].phase == Ready && !HashOk(held[me].claim) && Safe(Now())
      modifies this, repo
      ensures Now() == Run(old(Now()), script) && Safe(Now()) && me !in held && sent == old(sent)
    {
      ghost var start := Now();
      script := [Send(me, true), GiveUp(me, Reason(HashMismatch), markFault)];
      Transmit(me, true);
      var _ := MarkUnknownAndForget(me, Reason(HashMismatch), markFault);
      assert script == [script[0]] + [script[1]] && [script[1]] == [script[1]] + [];
      RunOne(start, script[0], [script[1]]);
      RunOne(Next(start, script[0]), script[1], []);
      SafeRun(start, script);
    }

    /** `_dispatch_outbox`: rounds until closing.  The whole loop is one protocol run. */
    method DispatchOutbox(me: nat, worker: string, producer: string, limit: nat, lease: int, rids: seq<string>, weather: seq<Weather>)
      returns (rounds: seq<Round>, ghost script: seq<Step>)
      requires me !in held && Safe(Now()) && |rids| == |weather|
      requires forall i :: 0 <= i < |weather| ==> Calm(weather[i], me)
      modifies this, repo
      ensures Now() == Run(old(Now()), script) && Safe(Now()) && me !in held
      ensures |rounds| == |weather|
      ensures forall i :: 0 <= i < |rounds| && rounds[i].Published? ==> WasSent(Now().sent, rounds[i].id)
      ensures forall i, j :: 0 <= i < j < |rounds| && rounds[i].Published? && rounds[j].Published? ==>
                rounds[i].id != rounds[j].id
    {
      rounds, script := [], [];
      for i := 0 to |weather|
        invariant Now() == Run(old(Now()), script) && Safe(Now()) && me !in held
        invariant |rounds| == i
        invariant forall k :: 0 <= k < |rounds| && rounds[k].Published? ==> WasSent(Now().sent, rounds[k].id)
        invariant forall k, j :: 0 <= k < j < |rounds| && rounds[k].Published? && rounds[j].Published? ==>
                    rounds[k].id != rounds[j].id
      {
        ghost var before := Now();
        var round;
        ghost var more;
        round, more := DispatchRound(me, worker, producer, limit, lease, rids[i], weather[i]);
        RunAppend(old(Now()), script, more);
        TraceOnlyGrows(before, more);
        forall k | 0 <= k < |rounds| && rounds[k].Published?
          ensures WasSent(Now().sent, rounds[k].id)
        {
          WasSentKept(before, Now(), rounds[k].id);
        }
        script := script + more;
        rounds := rounds + [round];
      }
    }
  }
}
