/** The inbox of repository.py and its use by the subscription loop of runtime.py.

    `message_transaction` claims a row, runs the handler inside a savepoint, and commits either the
    handler's writes with a COMPLETED row or a FAILED row alone.  The claim is part of the same
    transaction, so a crash leaves the row as it was.  A claimed row stays locked until then;
    another delivery of the same message waits.  SHA-256 is a free constructor. */
module InboxProtocol {
  import opened Common

  datatype Key = Key(consumer: string, messageId: string)

  datatype Digest = Sha256(content: string)

  datatype Status = Processing | Completed | Failed

  datatype Row = Row(topic: string, sha: Option<Digest>, status: Status, attempts: nat, leaseUntil: int)

  datatype Message = Message(key: Key, topic: string, sha: Option<Digest>)

  /** One committed unit of work: what a message's handler wrote to business tables, audit and outbox. */
  datatype Unit = Unit(message: Message, writes: seq<string>)

  /** An open transaction that owns its message's row.  `completed` is the handler's `complete()`. */
  datatype Tx = Tx(message: Message, row: Row, writes: seq<string>, completed: bool)

  datatype World = World(
    inbox: map<Key, Row>,
    units: seq<Unit>,
    open: map<nat, Tx>,
    cleared: map<nat, Message>,
    acks: seq<Message>,
    now: int)

  datatype Error = Conflict | NotCompleted | HandlerFailed | Lost | Busy

  datatype Claim = Claimed(row: Row) | NotClaimed(duplicateCompleted: bool) | Mismatch

  /** `_claim_message`: the upsert, then the plain read. */
  function ClaimMessage(inbox: map<Key, Row>, m: Message, lease: nat, now: int): Claim {
    if m.key !in inbox then Claimed(Row(m.topic, m.sha, Processing, 1, now + lease))
    else
      var r := inbox[m.key];
      if r.status == Failed || (r.status == Processing && r.leaseUntil < now) then
        if r.topic != m.topic || r.sha != m.sha then Mismatch
        else Claimed(r.(status := Processing, attempts := r.attempts + 1, leaseUntil := now + lease))
      else if r.topic != m.topic || r.sha != m.sha then Mismatch
      else NotClaimed(r.status == Completed)
  }

  predicate Locked(w: World, k: Key) {
    exists h :: h in w.open && w.open[h].message.key == k
  }

  /** How a transaction's COMMIT went for its client. */
  datatype Fault = Clean | LostBefore | LostAfter

  datatype Step =
    | Tick(now: int)
    | Open(worker: nat, message: Message, lease: nat)
    | DoWrite(worker: nat, body: string)
    | DoComplete(worker: nat)
    | Commit(worker: nat, fault: Fault)
    | Fail(worker: nat, fault: Fault)
    | Crash(worker: nat)
    | AckTransport(worker: nat)

  predicate Idle(w: World, h: nat) {
    h !in w.open && h !in w.cleared
  }

  function AfterOpen(w: World, h: nat, m: Message, lease: nat): World {
    match ClaimMessage(w.inbox, m, lease, w.now)
    case Claimed(row) => w.(open := w.open[h := Tx(m, row, [], false)])
    case NotClaimed(done) => if done then w.(cleared := w.cleared[h := m]) else w
    case Mismatch => w
  }

  /** The savepoint is released and the outer transaction commits; only a client that saw the
      commit goes on to acknowledge. */
  function AfterCommit(w: World, h: nat, fault: Fault): World
    requires h in w.open && w.open[h].completed
  {
    var tx := w.open[h];
    if fault == LostBefore then w.(open := w.open - {h})
    else
      w.(inbox := w.inbox[tx.message.key := tx.row.(status := Completed)], units := w.units + [Unit(tx.message, tx.writes)],
         open := w.open - {h}, cleared := if fault == Clean then w.cleared[h := tx.message] else w.cleared)
  }

  /** The savepoint is rolled back, the row becomes FAILED, and the outer transaction commits. */
  function AfterFail(w: World, h: nat, fault: Fault): World
    requires h in w.open
  {
    var tx := w.open[h];
    w.(inbox := if fault == LostBefore then w.inbox else w.inbox[tx.message.key := tx.row.(status := Failed)],
       open := w.open - {h})
  }

  /** One atomic step; a step that cannot be taken changes nothing. */
  function Next(w: World, s: Step): World {
    match s
    case Tick(now) => if w.now <= now then w.(now := now) else w
    case Open(h, m, lease) => if Idle(w, h) && !Locked(w, m.key) then AfterOpen(w, h, m, lease) else w
    case DoWrite(h, body) =>
      if h in w.open then w.(open := w.open[h := w.open[h].(writes := w.open[h].writes + [body])]) else w
    case DoComplete(h) =>
      if h in w.open && !w.open[h].completed then w.(open := w.open[h := w.open[h].(completed := true)]) else w
    case Commit(h, fault) => if h in w.open && w.open[h].completed then AfterCommit(w, h, fault) else w
    case Fail(h, fault) => if h in w.open then AfterFail(w, h, fault) else w
    case Crash(h) => w.(open := w.open - {h}, cleared := w.cleared - {h})
    case AckTransport(h) => if h in w.cleared then w.(acks := w.acks + [w.cleared[h]], cleared := w.cleared - {h}) else w
  }

  function Run(w: World, steps: seq<Step>): World
    decreases |steps|
  {
    if steps == [] then w else Run(Next(w, steps[0]), steps[1..])
  }

  // ---- The invariant --------------------------------------------------------------------

  predicate IsCompleted(inbox: map<Key, Row>, k: Key) {
    k in inbox && inbox[k].status == Completed
  }

  ghost predicate HasUnit(units: seq<Unit>, k: Key) {
    exists i :: 0 <= i < |units| && units[i].message.key == k
  }

  /** The row an acknowledgement rests on: completed, and for this very message. */
  ghost predicate Settled(inbox: map<Key, Row>, m: Message) {
    IsCompleted(inbox, m.key) && inbox[m.key].topic == m.topic && inbox[m.key].sha == m.sha
  }

  /** An open transaction staged exactly what its claim allows. */
  ghost predicate TxOk(inbox: map<Key, Row>, tx: Tx) {
    && tx.row.status == Processing && tx.row.topic == tx.message.topic && tx.row.sha == tx.message.sha
    && !IsCompleted(inbox, tx.message.key)
    && (tx.message.key in inbox ==> Continues(inbox[tx.message.key], tx.row))
  }

  /** Same identity, and no fewer attempts. */
  predicate Continues(r: Row, t: Row) {
    r.topic == t.topic && r.sha == t.sha && r.attempts <= t.attempts
  }

  /** No two open transactions hold the same row. */
  ghost predicate OpenOk(inbox: map<Key, Row>, open: map<nat, Tx>) {
    && (forall h :: h in open ==> TxOk(inbox, open[h]))
    && (forall g, h :: g in open && h in open && g != h ==> open[g].message.key != open[h].message.key)
  }

  /** What was acknowledged, or is about to be, is completed. */
  ghost predicate AnswersOk(inbox: map<Key, Row>, cleared: map<nat, Message>, acks: seq<Message>) {
    && (forall h :: h in cleared ==> Settled(inbox, cleared[h]))
    && (forall i :: 0 <= i < |acks| ==> Settled(inbox, acks[i]))
  }

  /** One committed unit for each message completed since; `done` are those completed before the run began. */
  ghost predicate UnitsOk(inbox: map<Key, Row>, units: seq<Unit>, done: set<Key>) {
    && (forall i :: 0 <= i < |units| ==> Settled(inbox, units[i].message) && units[i].message.key !in done)
    && (forall i, j :: 0 <= i < j < |units| ==> units[i].message.key != units[j].message.key)
    && (forall k :: IsCompleted(inbox, k) && k !in done ==> HasUnit(units, k))
    && (forall k :: k in done ==> IsCompleted(inbox, k))
  }

  ghost predicate Safe(w: World, done: set<Key>) {
    OpenOk(w.inbox, w.open) && AnswersOk(w.inbox, w.cleared, w.acks) && UnitsOk(w.inbox, w.units, done)
  }

  /** Identities never change, COMPLETED is for ever, and committed work and acknowledgements stay. */
  ghost predicate Grows(v: World, w: World) {
    && v.units <= w.units && v.acks <= w.acks
    && forall k :: k in v.inbox ==> RowGrows(v.inbox[k], w.inbox, k)
  }

  ghost predicate RowGrows(r: Row, inbox: map<Key, Row>, k: Key) {
    && k in inbox && Continues(r, inbox[k])
    && (r.status == Completed ==> inbox[k] == r)
  }

  /** Replacing the row an open transaction holds undoes no completion. */
  lemma SettledStay(inbox: map<Key, Row>, tx: Tx, row: Row, m: Message)
    requires TxOk(inbox, tx) && Settled(inbox, m)
    ensures Settled(inbox[tx.message.key := row], m)
  {
  }

  lemma AnswersStay(inbox: map<Key, Row>, cleared: map<nat, Message>, acks: seq<Message>, tx: Tx, row: Row)
    requires TxOk(inbox, tx) && AnswersOk(inbox, cleared, acks)
    ensures AnswersOk(inbox[tx.message.key := row], cleared, acks)
  {
    forall h | h in cleared
      ensures Settled(inbox[tx.message.key := row], cleared[h])
    {
      SettledStay(inbox, tx, row, cleared[h]);
    }
    forall i | 0 <= i < |acks|
      ensures Settled(inbox[tx.message.key := row], acks[i])
    {
      SettledStay(inbox, tx, row, acks[i]);
    }
  }

  lemma OthersStayOpen(inbox: map<Key, Row>, open: map<nat, Tx>, h: nat, row: Row)
    requires OpenOk(inbox, open) && h in open
    ensures OpenOk(inbox[open[h].message.key := row], open - {h})
  {
  }

  lemma UnfinishedHasNoUnit(inbox: map<Key, Row>, units: seq<Unit>, done: set<Key>, tx: Tx)
    requires UnitsOk(inbox, units, done) && TxOk(inbox, tx)
    ensures !HasUnit(units, tx.message.key) && tx.message.key !in done
  {
    assert forall i :: 0 <= i < |units| ==> Settled(inbox, units[i].message);
  }

  /** Committing a failure changes no completion. */
  lemma UnitsStay(inbox: map<Key, Row>, units: seq<Unit>, done: set<Key>, tx: Tx)
    requires UnitsOk(inbox, units, done) && TxOk(inbox, tx)
    ensures UnitsOk(inbox[tx.message.key := tx.row.(status := Failed)], units, done)
  {
    var failed := inbox[tx.message.key := tx.row.(status := Failed)];
    forall i | 0 <= i < |units|
      ensures Settled(failed, units[i].message)
    {
      SettledStay(inbox, tx, tx.row.(status := Failed), units[i].message);
    }
    assert forall k :: IsCompleted(failed, k) <==> IsCompleted(inbox, k);
  }

  /** Committing a unit completes its message and no other. */
  lemma UnitsGrow(inbox: map<Key, Row>, units: seq<Unit>, done: set<Key>, tx: Tx)
    requires UnitsOk(inbox, units, done) && TxOk(inbox, tx)
    ensures UnitsOk(inbox[tx.message.key := tx.row.(status := Completed)], units + [Unit(tx.message, tx.writes)], done)
  {
    var row, unit := tx.row.(status := Completed), Unit(tx.message, tx.writes);
    var completed, more := inbox[tx.message.key := row], units + [unit];
    UnfinishedHasNoUnit(inbox, units, done, tx);
    forall i | 0 <= i < |more|
      ensures Settled(completed, more[i].message) && more[i].message.key !in done
    {
      if i < |units| {
        SettledStay(inbox, tx, row, units[i].message);
      }
    }
    forall k | IsCompleted(completed, k) && k !in done
      ensures HasUnit(more, k)
    {
      HasUnitSnoc(units, unit, k);
      assert k != tx.message.key ==> IsCompleted(inbox, k);
    }
  }

  lemma HasUnitSnoc(units: seq<Unit>, unit: Unit, k: Key)
    ensures HasUnit(units + [unit], k) <==> HasUnit(units, k) || unit.message.key == k
  {
    var more := units + [unit];
    if HasUnit(units, k) {
      var i :| 0 <= i < |units| && units[i].message.key == k;
      assert more[i].message.key == k;
    }
    assert more[|units|] == unit;
  }

  lemma ClaimedTxOk(w: World, m: Message, lease: nat)
    requires ClaimMessage(w.inbox, m, lease, w.now).Claimed?
    ensures TxOk(w.inbox, Tx(m, ClaimMessage(w.inbox, m, lease, w.now).row, [], false))
  {
  }

  lemma OpenStep(w: World, h: nat, m: Message, lease: nat, done: set<Key>)
    requires Safe(w, done) && Idle(w, h) && !Locked(w, m.key)
    ensures Safe(AfterOpen(w, h, m, lease), done)
  {
    match ClaimMessage(w.inbox, m, lease, w.now)
    case Claimed(_) => ClaimedTxOk(w, m, lease);
    case NotClaimed(completed) => if completed { assert Settled(w.inbox, m); }
    case Mismatch =>
  }

  lemma CommitStep(w: World, h: nat, fault: Fault, done: set<Key>)
    requires Safe(w, done) && h in w.open && w.open[h].completed && fault != LostBefore
    ensures Safe(AfterCommit(w, h, fault), done)
  {
    var tx := w.open[h];
    AnswersStay(w.inbox, w.cleared, w.acks, tx, tx.row.(status := Completed));
    OthersStayOpen(w.inbox, w.open, h, tx.row.(status := Completed));
    UnitsGrow(w.inbox, w.units, done, tx);
  }

  lemma FailStep(w: World, h: nat, fault: Fault, done: set<Key>)
    requires Safe(w, done) && h in w.open
    ensures Safe(AfterFail(w, h, fault), done)
  {
    var tx := w.open[h];
    if fault != LostBefore {
      AnswersStay(w.inbox, w.cleared, w.acks, tx, tx.row.(status := Failed));
      OthersStayOpen(w.inbox, w.open, h, tx.row.(status := Failed));
      UnitsStay(w.inbox, w.units, done, tx);
    }
  }

  /** A step that touches neither rows nor units and only drops or relabels what is in flight. */
  lemma QuietStep(w: World, v: World, done: set<Key>)
    requires Safe(w, done) && v.inbox == w.inbox && v.units == w.units && v.acks == w.acks
    requires forall h :: h in v.cleared ==> h in w.cleared && v.cleared[h] == w.cleared[h]
    requires forall h :: h in v.open ==> h in w.open && v.open[h].message == w.open[h].message && v.open[h].row == w.open[h].row
    ensures Safe(v, done)
  {
    forall h | h in v.open
      ensures TxOk(v.inbox, v.open[h])
    {
      assert TxOk(w.inbox, w.open[h]);
    }
  }

  lemma SafeStep(w: World, s: Step, done: set<Key>)
    requires Safe(w, done)
    ensures Safe(Next(w, s), done)
  {
    match s
    case Open(h, m, lease) => if Idle(w, h) && !Locked(w, m.key) { OpenStep(w, h, m, lease, done); }
    case Commit(h, fault) =>
      if h in w.open && w.open[h].completed {
        if fault == LostBefore { QuietStep(w, Next(w, s), done); } else { CommitStep(w, h, fault, done); }
      }
    case Fail(h, fault) => if h in w.open { FailStep(w, h, fault, done); }
    case AckTransport(h) =>
    case Tick(_) => QuietStep(w, Next(w, s), done);
    case DoWrite(_, _) => QuietStep(w, Next(w, s), done);
    case DoComplete(_) => QuietStep(w, Next(w, s), done);
    case Crash(_) => QuietStep(w, Next(w, s), done);
  }

  lemma {:induction false} SafeRun(w: World, steps: seq<Step>, done: set<Key>)
    requires Safe(w, done)
    ensures Safe(Run(w, steps), done)
    decreases |steps|
  {
    if steps != [] {
      SafeStep(w, steps[0], done);
      SafeRun(Next(w, steps[0]), steps[1..], done);
    }
  }
}
