/** What every run of the inbox guarantees: a message's work is committed at most once, exactly
    when its row is COMPLETED, and acknowledged only after that. */
module InboxHistory {
  import opened Common
  import opened InboxProtocol

  /** A database as found, with nothing running; the rows may be anything older code left. */
  ghost predicate Initial(w: World) {
    w.units == [] && w.open == map[] && w.cleared == map[] && w.acks == []
  }

  function DoneIn(w: World): set<Key> {
    set k | k in w.inbox && w.inbox[k].status == Completed
  }

  lemma InitialIsSafe(w: World)
    requires Initial(w)
    ensures Safe(w, DoneIn(w))
  {
  }

  /** The units committed for a key. */
  function UnitsFor(units: seq<Unit>, k: Key): seq<Unit> {
    if units == [] then []
    else UnitsFor(units[..|units| - 1], k) + if units[|units| - 1].message.key == k then [units[|units| - 1]] else []
  }

  lemma {:induction false} CountUnits(units: seq<Unit>, k: Key)
    requires forall i, j :: 0 <= i < j < |units| ==> units[i].message.key != units[j].message.key
    ensures |UnitsFor(units, k)| == if HasUnit(units, k) then 1 else 0
    decreases |units|
  {
    if units != [] {
      var n := |units| - 1;
      CountUnits(units[..n], k);
      if HasUnit(units, k) {
        var i :| 0 <= i < |units| && units[i].message.key == k;
        assert i < n ==> units[..n][i].message.key == k;
      }
      if HasUnit(units[..n], k) {
        var i :| 0 <= i < n && units[..n][i].message.key == k;
        assert units[i].message.key == k;
      }
    }
  }

  /** Over any redeliveries, handler failures, crashes and lost commits: a message that was not
      already done has exactly one committed unit if its row is COMPLETED and none otherwise, and a
      message done before the run gets no unit at all. */
  lemma CommittedExactlyOnce(w: World, steps: seq<Step>, k: Key)
    requires Initial(w)
    ensures var v := Run(w, steps);
            |UnitsFor(v.units, k)| == if IsCompleted(v.inbox, k) && !IsCompleted(w.inbox, k) then 1 else 0
  {
    InitialIsSafe(w);
    SafeRun(w, steps, DoneIn(w));
    var v := Run(w, steps);
    CountUnits(v.units, k);
    if HasUnit(v.units, k) {
      var i :| 0 <= i < |v.units| && v.units[i].message.key == k;
      assert Settled(v.inbox, v.units[i].message);
    }
  }

  /** Every transport ACK is for a message whose row is COMPLETED under that very identity. */
  lemma AcksFollowCommits(w: World, steps: seq<Step>, i: nat)
    requires Initial(w) && i < |Run(w, steps).acks|
    ensures Settled(Run(w, steps).inbox, Run(w, steps).acks[i])
  {
    InitialIsSafe(w);
    SafeRun(w, steps, DoneIn(w));
  }

  lemma StepGrows(w: World, s: Step, done: set<Key>)
    requires Safe(w, done)
    ensures Grows(w, Next(w, s))
  {
    match s
    case Commit(h, fault) => if h in w.open && w.open[h].completed { CommitGrows(w, h, fault, done); }
    case Fail(h, fault) => if h in w.open { FailGrows(w, h, fault, done); }
    case Open(h, m, lease) => assert AfterOpen(w, h, m, lease).inbox == w.inbox;
    case _ =>
  }

  lemma CommitGrows(w: World, h: nat, fault: Fault, done: set<Key>)
    requires Safe(w, done) && h in w.open && w.open[h].completed
    ensures Grows(w, AfterCommit(w, h, fault))
  {
    SettledRowGrows(w, h, Completed, done);
  }

  lemma FailGrows(w: World, h: nat, fault: Fault, done: set<Key>)
    requires Safe(w, done) && h in w.open
    ensures Grows(w, AfterFail(w, h, fault))
  {
    SettledRowGrows(w, h, Failed, done);
  }

  lemma SettledRowGrows(w: World, h: nat, status: Status, done: set<Key>)
    requires Safe(w, done) && h in w.open
    ensures var inbox := w.inbox[w.open[h].message.key := w.open[h].row.(status := status)];
            forall k :: k in w.inbox ==> RowGrows(w.inbox[k], inbox, k) && RowGrows(w.inbox[k], w.inbox, k)
  {
    assert TxOk(w.inbox, w.open[h]);
  }

  /** COMPLETED is for ever, identities and attempt counts never go back, committed work stays. */
  lemma {:induction false} RunGrows(w: World, steps: seq<Step>, done: set<Key>)
    requires Safe(w, done)
    ensures Grows(w, Run(w, steps))
    decreases |steps|
  {
    if steps != [] {
      var v := Next(w, steps[0]);
      StepGrows(w, steps[0], done);
      SafeStep(w, steps[0], done);
      RunGrows(v, steps[1..], done);
      forall k | k in w.inbox
        ensures RowGrows(w.inbox[k], Run(w, steps).inbox, k)
      {
        assert RowGrows(w.inbox[k], v.inbox, k) && RowGrows(v.inbox[k], Run(w, steps).inbox, k);
      }
    }
  }

  lemma CompletedStay(w: World, steps: seq<Step>, done: set<Key>)
    requires Safe(w, done)
    ensures forall k :: IsCompleted(w.inbox, k) ==> IsCompleted(Run(w, steps).inbox, k)
  {
    RunGrows(w, steps, done);
    forall k | IsCompleted(w.inbox, k)
      ensures IsCompleted(Run(w, steps).inbox, k)
    {
      assert RowGrows(w.inbox[k], Run(w, steps).inbox, k);
    }
  }

  /** A failed or crashed delivery blocks nothing: the next delivery of the same message claims it
      at once, with a clean sheet, and its failure left no write behind. */
  lemma FailureCanBeRetried(w: World, h: nat, g: nat, fault: Fault, lease: nat, done: set<Key>)
    requires Safe(w, done) && h in w.open && fault != LostBefore && g !in w.open && g !in w.cleared
    ensures var v := Next(w, Fail(h, fault));
            var u := Next(v, Open(g, w.open[h].message, lease));
            && v.units == w.units && g in u.open && u.open[g].writes == [] && u.open[g].row.attempts == w.open[h].row.attempts + 1
  {
    var m := w.open[h].message;
    var v := Next(w, Fail(h, fault));
    assert TxOk(w.inbox, w.open[h]);
    assert !Locked(v, m.key);
    assert ClaimMessage(v.inbox, m, lease, v.now).Claimed?;
  }

  lemma CrashLeavesTheRow(w: World, h: nat, g: nat, lease: nat, done: set<Key>)
    requires Safe(w, done) && h in w.open && g !in w.open && g !in w.cleared
    requires var k := w.open[h].message.key; k in w.inbox ==> w.inbox[k].status == Failed || w.inbox[k].leaseUntil < w.now
    ensures var v := Next(w, Crash(h));
            && v.inbox == w.inbox && v.units == w.units && g in Next(v, Open(g, w.open[h].message, lease)).open
  {
    var m := w.open[h].message;
    var v := Next(w, Crash(h));
    assert TxOk(w.inbox, w.open[h]);
    assert !Locked(v, m.key);
  }

  /** A message delivered again after its commit is acknowledged without running the handler. */
  lemma DuplicateIsOnlyAcknowledged(w: World, h: nat, m: Message, lease: nat, done: set<Key>)
    requires Safe(w, done) && Idle(w, h) && Settled(w.inbox, m)
    ensures var v := Next(w, Open(h, m, lease));
            v == w.(cleared := w.cleared[h := m]) && Next(v, AckTransport(h)).acks == w.acks + [m]
  {
    forall g | g in w.open
      ensures w.open[g].message.key != m.key
    {
      assert TxOk(w.inbox, w.open[g]);
    }
  }
}
