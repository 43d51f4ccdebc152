/** The subscription loop of runtime.py (`DurableMessageBus._subscribe`) over `message_transaction`,
    with other consumers taking arbitrary steps in its gaps.  The loop is proved to be a run of the
    inbox protocol and its answers are tied to what was committed. */
module InboxWorkers {
  import opened Common
  import opened InboxProtocol
  import opened InboxHistory

  /** How the code under the savepoint ends: the handler asked for the ACK, returned without asking,
      raised an error inside the transaction, or the task was cut off. */
  datatype Ending = Asks | Returns | Raises | CutOff

  /** One delivery by the transport, its handler's writes, and what the world does around it. */
  datatype Delivery = Delivery(
    message: Message, writes: seq<string>, ending: Ending, commitFault: Fault, ackFails: bool,
    beforeClaim: seq<Step>, during: seq<Step>, beforeAck: seq<Step>)

  datatype Outcome = Processed | DuplicateAcked | LeftPending | Stopped

  predicate Foreign(s: Step, me: nat) {
    match s
    case Tick(_) => true
    case Open(h, _, _) => h != me
    case DoWrite(h, _) => h != me
    case DoComplete(h) => h != me
    case Commit(h, _) => h != me
    case Fail(h, _) => h != me
    case Crash(h) => h != me
    case AckTransport(h) => h != me
  }

  predicate AllForeign(steps: seq<Step>, me: nat) {
    forall i :: 0 <= i < |steps| ==> Foreign(steps[i], me)
  }

  predicate Calm(d: Delivery, me: nat) {
    AllForeign(d.beforeClaim, me) && AllForeign(d.during, me) && AllForeign(d.beforeAck, me)
  }

  /** Others left worker `me` where it was. */
  ghost predicate Untouched(w: World, v: World, me: nat) {
    && (me in v.open <==> me in w.open) && (me in w.open ==> v.open[me] == w.open[me])
    && (me in v.cleared <==> me in w.cleared) && (me in w.cleared ==> v.cleared[me] == w.cleared[me])
  }

  lemma ForeignStep(w: World, s: Step, me: nat)
    requires Foreign(s, me)
    ensures Untouched(w, Next(w, s), me)
  {
  }

  lemma {:induction false} ForeignRun(w: World, steps: seq<Step>, me: nat)
    requires AllForeign(steps, me)
    ensures Untouched(w, Run(w, steps), me)
    decreases |steps|
  {
    if steps != [] {
      ForeignStep(w, steps[0], me);
      ForeignRun(Next(w, steps[0]), steps[1..], me);
    }
  }

  /** Nothing in these steps commits work of worker `me`. */
  ghost predicate NoCommit(steps: seq<Step>, me: nat) {
    forall i :: 0 <= i < |steps| ==> !(steps[i].Commit? && steps[i].worker == me && steps[i].fault != LostBefore)
  }

  lemma ForeignMeansNoCommit(steps: seq<Step>, me: nat)
    requires AllForeign(steps, me)
    ensures NoCommit(steps, me)
  {
    forall i | 0 <= i < |steps|
      ensures !(steps[i].Commit? && steps[i].worker == me && steps[i].fault != LostBefore)
    {
      assert Foreign(steps[i], me);
    }
  }

  lemma {:induction false} RunAppend(w: World, a: seq<Step>, b: seq<Step>)
    ensures Run(w, a + b) == Run(Run(w, a), b)
    decreases |a|
  {
    if a == [] {
      assert a + b == b;
    } else {
      assert (a + b)[0] == a[0] && (a + b)[1..] == a[1..] + b;
      RunAppend(Next(w, a[0]), a[1..], b);
    }
  }

  lemma RunSnoc(w: World, a: seq<Step>, s: Step)
    ensures Run(w, a + [s]) == Next(Run(w, a), s)
  {
    RunAppend(w, a, [s]);
    assert [s][1..] == [];
  }

  /** While others moved, my cleared message stayed mine; then I acknowledge it or die. */
  lemma AckIsMine(w: World, d: Delivery, h: nat, done: set<Key>)
    requires Safe(w, done) && h in w.cleared && h !in w.open && AllForeign(d.beforeAck, h)
    ensures var v := Run(w, d.beforeAck);
            && h in v.cleared && v.cleared[h] == w.cleared[h] && h !in v.open && w.units <= v.units
            && Run(w, d.beforeAck + [Crash(h)]) == Next(v, Crash(h))
            && Run(w, d.beforeAck + [AckTransport(h)]) == Next(v, AckTransport(h))
  {
    ForeignRun(w, d.beforeAck, h);
    RunGrows(w, d.beforeAck, done);
    RunSnoc(w, d.beforeAck, Crash(h));
    RunSnoc(w, d.beforeAck, AckTransport(h));
  }

  /** The world once worker `h` has written exactly `writes`. */
  function Wrote(w: World, h: nat, writes: seq<string>): World
    requires h in w.open
  {
    w.(open := w.open[h := w.open[h].(writes := writes)])
  }

  lemma WroteOneMore(w: World, h: nat, writes: seq<string>, i: nat)
    requires h in w.open && i < |writes|
    ensures Next(Wrote(w, h, writes[..i]), DoWrite(h, writes[i])) == Wrote(w, h, writes[..i + 1])
  {
    assert writes[..i] + [writes[i]] == writes[..i + 1];
    assert w.open[h := w.open[h].(writes := writes[..i])][h := w.open[h].(writes := writes[..i + 1])]
        == w.open[h := w.open[h].(writes := writes[..i + 1])];
  }

  class DurableMessageBus {
    var inbox: map<Key, Row>
    var units: seq<Unit>
    var open: map<nat, Tx>
    var cleared: map<nat, Message>
    var now: int
    ghost var acks: seq<Message>
    ghost const done: set<Key>

    ghost function View(): World
      reads this
    {
      World(inbox, units, open, cleared, acks, now)
    }

    ghost predicate Valid()
      reads this
    {
      Safe(View(), done)
    }

    constructor (inbox: map<Key, Row>, now: int)
      ensures Valid() && Initial(View()) && this.inbox == inbox && this.now == now
    {
      this.inbox, this.now := inbox, now;
      units, open, cleared, acks := [], map[], map[], [];
      done := set k | k in inbox && inbox[k].status == Completed;
    }

    /** Enter `message_transaction`: claim the row, or learn why not. */
    method Enter(h: nat, m: Message, lease: nat) returns (claim: Option<Claim>)
      requires Valid()
      modifies this
      ensures Valid() && View() == Next(old(View()), Open(h, m, lease))
      ensures claim == if Idle(old(View()), h) && !Locked(old(View()), m.key) then Some(ClaimMessage(old(inbox), m, lease, now)) else None
    {
      SafeStep(View(), Open(h, m, lease), done);
      if h in open || h in cleared || exists g :: g in open && open[g].message.key == m.key {
        return None;
      }
      claim := Some(ClaimMessage(inbox, m, lease, now));
      match claim.value
      case Claimed(row) => open := open[h := Tx(m, row, [], false)];
      case NotClaimed(completed) =>
        if completed {
          cleared := cleared[h := m];
        }
      case Mismatch =>
    }

    method Write(h: nat, body: string)
      requires Valid()
      modifies this
      ensures Valid() && View() == Next(old(View()), DoWrite(h, body))
    {
      SafeStep(View(), DoWrite(h, body), done);
      if h in open {
        open := open[h := open[h].(writes := open[h].writes + [body])];
      }
    }

    method Complete(h: nat)
      requires Valid()
      modifies this
      ensures Valid() && View() == Next(old(View()), DoComplete(h))
    {
      SafeStep(View(), DoComplete(h), done);
      if h in open && !open[h].completed {
        open := open[h := open[h].(completed := true)];
      }
    }

    method CommitUnit(h: nat, fault: Fault)
      requires Valid()
      modifies this
      ensures Valid() && View() == Next(old(View()), Commit(h, fault))
    {
      SafeStep(View(), Commit(h, fault), done);
      CommitLocked(h, fault);
    }

    method CommitLocked(h: nat, fault: Fault)
      modifies this
      ensures View() == Next(old(View()), Commit(h, fault))
    {
      if h in open && open[h].completed {
        var tx := open[h];
        open := open - {h};
        if fault != LostBefore {
          inbox := inbox[tx.message.key := tx.row.(status := Completed)];
          units := units + [Unit(tx.message, tx.writes)];
          if fault == Clean {
            cleared := cleared[h := tx.message];
          }
        }
      }
    }

    method RecordFailure(h: nat, fault: Fault)
      requires Valid()
      modifies this
      ensures Valid() && View() == Next(old(View()), Fail(h, fault))
    {
      SafeStep(View(), Fail(h, fault), done);
      FailLocked(h, fault);
    }

    method FailLocked(h: nat, fault: Fault)
      modifies this
      ensures View() == Next(old(View()), Fail(h, fault))
    {
      if h in open {
        var tx := open[h];
        open := open - {h};
        if fault != LostBefore {
          inbox := inbox[tx.message.key := tx.row.(status := Failed)];
        }
      }
    }

    method Die(h: nat)
      requires Valid()
      modifies this
      ensures Valid() && View() == Next(old(View()), Crash(h))
    {
      SafeStep(View(), Crash(h), done);
      open, cleared := open - {h}, cleared - {h};
    }

    method Acknowledge(h: nat)
      requires Valid()
      modifies this
      ensures Valid() && View() == Next(old(View()), AckTransport(h))
    {
      SafeStep(View(), AckTransport(h), done);
      if h in cleared {
        acks := acks + [cleared[h]];
        cleared := cleared - {h};
      }
    }

    method Perform(s: Step)
      requires Valid()
      modifies this
      ensures Valid() && View() == Next(old(View()), s)
    {
      match s
      case Tick(later) =>
        SafeStep(View(), s, done);
        now := if now <= later then later else now;
      case Open(h, m, lease) => var _ := Enter(h, m, lease);
      case DoWrite(h, body) => Write(h, body);
      case DoComplete(h) => Complete(h);
      case Commit(h, fault) => CommitUnit(h, fault);
      case Fail(h, fault) => RecordFailure(h, fault);
      case Crash(h) => Die(h);
      case AckTransport(h) => Acknowledge(h);
    }

    method Others(steps: seq<Step>)
      requires Valid()
      modifies this
      ensures Valid() && View() == Run(old(View()), steps)
    {
      ghost var before := View();
      var taken := 0;
      while taken < |steps|
        invariant 0 <= taken <= |steps|
        invariant Valid() && Run(View(), steps[taken..]) == Run(before, steps)
      {
        assert steps[taken..][1..] == steps[taken + 1..];
        Perform(steps[taken]);
        taken := taken + 1;
      }
    }

    /** The handler's own writes, through the transaction's connection. */
    method WriteAll(h: nat, d: Delivery) returns (ghost steps: seq<Step>)
      requires Valid() && h in open && open[h].writes == []
      modifies this
      ensures Valid() && View() == Run(old(View()), steps) && NoCommit(steps, h)
      ensures open == old(open)[h := old(open)[h].(writes := d.writes)] && cleared == old(cleared)
    {
      ghost var before := View();
      steps := [];
      for i := 0 to |d.writes|
        invariant Valid() && View() == Run(before, steps) && NoCommit(steps, h)
        invariant View() == Wrote(before, h, d.writes[..i])
      {
        WroteOneMore(before, h, d.writes, i);
        Write(h, d.writes[i]);
        RunSnoc(before, steps, DoWrite(h, d.writes[i]));
        steps := steps + [DoWrite(h, d.writes[i])];
      }
      assert d.writes[..|d.writes|] == d.writes;
    }

    /** The end of `message_transaction`.  A handler that returned without asking is recorded as a
        failure and swallowed; one that raised is recorded and stops the loop. */
    method End(h: nat, d: Delivery) returns (shouldAck: bool, stop: bool, ghost steps: seq<Step>)
      requires Valid() && h in open && h !in cleared && open[h] == Tx(d.message, open[h].row, d.writes, false)
      modifies this
      ensures Valid() && View() == Run(old(View()), steps) && h !in open
      ensures (shouldAck <==> h in cleared) && (shouldAck <==> d.ending == Asks && d.commitFault == Clean)
      ensures shouldAck ==> cleared[h] == d.message
      ensures d.ending == Asks && d.commitFault != LostBefore ==> units == old(units) + [Unit(d.message, d.writes)]
      ensures d.ending != Asks || d.commitFault == LostBefore ==> NoCommit(steps, h) && units == old(units)
      ensures !shouldAck && !stop ==> d.ending == Returns
      ensures stop <==> d.ending == Raises || d.ending == CutOff || d.commitFault != Clean
    {
      ghost var before := View();
      match d.ending
      case Asks =>
        steps := CompleteAndCommit(h, d);
        shouldAck, stop := d.commitFault == Clean, d.commitFault != Clean;
      case CutOff =>
        Die(h);
        RunSnoc(before, [], Crash(h));
        steps, shouldAck, stop := [] + [Crash(h)], false, true;
      case _ =>
        RecordFailure(h, d.commitFault);
        RunSnoc(before, [], Fail(h, d.commitFault));
        steps, shouldAck, stop := [] + [Fail(h, d.commitFault)], false, d.ending == Raises || d.commitFault != Clean;
    }

    /** `complete()` inside the savepoint, then the outer COMMIT. */
    method CompleteAndCommit(h: nat, d: Delivery) returns (ghost steps: seq<Step>)
      requires Valid() && h in open && h !in cleared && open[h] == Tx(d.message, open[h].row, d.writes, false)
      modifies this
      ensures Valid() && View() == Run(old(View()), steps) && h !in open
      ensures h in cleared <==> d.commitFault == Clean
      ensures h in cleared ==> cleared[h] == d.message
      ensures if d.commitFault == LostBefore then NoCommit(steps, h) && units == old(units)
              else units == old(units) + [Unit(d.message, d.writes)]
    {
      ghost var before := View();
      Complete(h);
      RunSnoc(before, [], DoComplete(h));
      CommitUnit(h, d.commitFault);
      RunSnoc(before, [] + [DoComplete(h)], Commit(h, d.commitFault));
      steps := [] + [DoComplete(h)] + [Commit(h, d.commitFault)];
    }

    /** A claimed delivery from its first write to the end of its transaction. */
    method Handle(h: nat, d: Delivery) returns (shouldAck: bool, stop: bool, ghost steps: seq<Step>)
      requires Valid() && Calm(d, h) && h in open && h !in cleared && open[h] == Tx(d.message, open[h].row, [], false)
      modifies this
      ensures Valid() && View() == Run(old(View()), steps) && h !in open
      ensures (shouldAck <==> h in cleared) && (shouldAck ==> cleared[h] == d.message && Unit(d.message, d.writes) in units)
      ensures (d.ending != Asks || d.commitFault == LostBefore) ==> NoCommit(steps, h)
      ensures !shouldAck && !stop ==> d.ending == Returns
      ensures stop ==> !shouldAck
    {
      ghost var before, more := View(), [];
      steps := WriteAll(h, d);
      ghost var mid := View();
      Others(d.during);
      ForeignRun(mid, d.during, h);
      ForeignMeansNoCommit(d.during, h);
      RunAppend(before, steps, d.during);
      steps := steps + d.during;
      shouldAck, stop, more := End(h, d);
      RunAppend(before, steps, more);
      steps := steps + more;
    }

    /** Other deliveries, then the claim of this one. */
    method ClaimStage(h: nat, d: Delivery, lease: nat) returns (claim: Option<Claim>, ghost steps: seq<Step>)
      requires Valid() && AllForeign(d.beforeClaim, h) && Idle(View(), h)
      modifies this
      ensures Valid() && View() == Run(old(View()), steps) && NoCommit(steps, h)
      ensures h in open <==> claim.Some? && claim.value.Claimed?
      ensures h in open ==> open[h] == Tx(d.message, claim.value.row, [], false)
      ensures h in cleared <==> claim.Some? && claim.value.NotClaimed? && claim.value.duplicateCompleted
      ensures h in cleared ==> cleared[h] == d.message
    {
      ghost var before := View();
      Others(d.beforeClaim);
      ForeignRun(before, d.beforeClaim, h);
      ForeignMeansNoCommit(d.beforeClaim, h);
      claim := Enter(h, d.message, lease);
      RunSnoc(before, d.beforeClaim, Open(h, d.message, lease));
      steps := d.beforeClaim + [Open(h, d.message, lease)];
    }

    /** `message_transaction` as the loop uses it: claim the message, and if it is mine, handle it.
        The answer is provisional: Processed and DuplicateAcked still need the transport's ACK. */
    method Process(h: nat, d: Delivery, lease: nat) returns (outcome: Outcome, ghost steps: seq<Step>)
      requires Valid() && Calm(d, h) && Idle(View(), h)
      modifies this
      ensures Valid() && View() == Run(old(View()), steps) && h !in open
      ensures h in cleared <==> outcome == Processed || outcome == DuplicateAcked
      ensures h in cleared ==> cleared[h] == d.message
      ensures outcome == Processed ==> Unit(d.message, d.writes) in units
      ensures outcome == LeftPending ==> NoCommit(steps, h)
    {
      ghost var before := View();
      var claim;
      claim, steps := ClaimStage(h, d, lease);
      if claim.None? {
        return LeftPending, steps;
      }
      match claim.value {
        case Mismatch => outcome := Stopped;
        case NotClaimed(completed) => outcome := if completed then DuplicateAcked else LeftPending;
        case Claimed(_) =>
          var shouldAck, stop;
          ghost var more;
          shouldAck, stop, more := Handle(h, d);
          RunAppend(before, steps, more);
          steps := steps + more;
          outcome := if shouldAck then Processed else if stop then Stopped else LeftPending;
      }
    }

    /** One turn of the subscription loop. */
    method Deliver(h: nat, d: Delivery, lease: nat) returns (outcome: Outcome, ghost steps: seq<Step>)
      requires Valid() && Calm(d, h) && Idle(View(), h)
      modifies this
      ensures Valid() && View() == Run(old(View()), steps) && Idle(View(), h)
      ensures outcome == Processed ==> Unit(d.message, d.writes) in units
      ensures outcome == Processed || outcome == DuplicateAcked ==> d.message in acks && Settled(inbox, d.message)
      ensures outcome == LeftPending ==> NoCommit(steps, h)
    {
      ghost var before := View();
      outcome, steps := Process(h, d, lease);
      if outcome == Processed || outcome == DuplicateAcked {
        var acked;
        ghost var more;
        acked, more := AckStage(h, d);
        RunAppend(before, steps, more);
        steps := steps + more;
        if !acked {
          outcome := Stopped;
        }
      }
    }

    /** After the commit: the transport ACK, unless it fails. */
    method AckStage(h: nat, d: Delivery) returns (acked: bool, ghost steps: seq<Step>)
      requires Valid() && h in cleared && h !in open && cleared[h] == d.message && AllForeign(d.beforeAck, h)
      modifies this
      ensures Valid() && View() == Run(old(View()), steps) && Idle(View(), h)
      ensures acked <==> !d.ackFails
      ensures acked ==> d.message in acks && Settled(inbox, d.message)
      ensures old(units) <= units
    {
      ghost var before := View();
      Others(d.beforeAck);
      AckIsMine(before, d, h, done);
      acked := !d.ackFails;
      if d.ackFails {
        Die(h);
        steps := d.beforeAck + [Crash(h)];
      } else {
        Acknowledge(h);
        steps := d.beforeAck + [AckTransport(h)];
        assert acks[|acks| - 1] == d.message;
      }
    }

    /** `_subscribe`: deliveries one after another until one of them stops the loop. */
    method Subscribe(h: nat, deliveries: seq<Delivery>, lease: nat) returns (outcomes: seq<Outcome>, ghost steps: seq<Step>)
      requires Valid() && Idle(View(), h) && forall i :: 0 <= i < |deliveries| ==> Calm(deliveries[i], h)
      modifies this
      ensures Valid() && View() == Run(old(View()), steps)
      ensures |outcomes| <= |deliveries|
      ensures forall i :: 0 <= i < |outcomes| && (outcomes[i] == Processed || outcomes[i] == DuplicateAcked) ==>
                IsCompleted(inbox, deliveries[i].message.key)
      ensures forall i :: 0 <= i < |outcomes| && outcomes[i] == Stopped ==> i == |outcomes| - 1
    {
      ghost var before, more := View(), [];
      outcomes, steps := [], [];
      var stopped := false;
      while !stopped && |outcomes| < |deliveries|
        invariant |outcomes| <= |deliveries|
        invariant Valid() && View() == Run(before, steps) && Idle(View(), h)
        invariant forall i :: 0 <= i < |outcomes| && (outcomes[i] == Processed || outcomes[i] == DuplicateAcked) ==>
                    IsCompleted(inbox, deliveries[i].message.key)
        invariant forall i :: 0 <= i < |outcomes| && outcomes[i] == Stopped ==> stopped && i == |outcomes| - 1
        decreases |deliveries| - |outcomes|
      {
        ghost var mark := View();
        var outcome;
        outcome, more := Deliver(h, deliveries[|outcomes|], lease);
        CompletedStay(mark, more, done);
        RunAppend(before, steps, more);
        steps := steps + more;
        outcomes := outcomes + [outcome];
        stopped := outcome == Stopped;
      }
    }
  }
}
