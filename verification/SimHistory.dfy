/** Every run of the simulator journal: trades always verify, and each command takes effect once. */
module SimHistory {
  import opened Common
  import opened SimJournal

  // ---- Events ---------------------------------------------------------------------------

  lemma PutEventOk(t: Trade, id: string, e: Event)
    requires ChainOk(t, id) && NextInLine(t, e) && e.trade == id
    ensures ChainOk(PutEvent(t, e), id)
  {
    var u := PutEvent(t, e);
    forall i | 0 <= i < |u.events|
      ensures EventOk(u, id, i)
    {
      assert HeadBefore(u, i) == HeadBefore(t, i) && StateBefore(u, i) == StateBefore(t, i);
      assert i < |t.events| ==> EventOk(t, id, i);
    }
  }

  /** Appending touches one journal and nothing else. */
  lemma AppendKeeps(b: Book, e: Event)
    requires TradesOk(b)
    ensures var c := AppendEvent(b, e).0;
            TradesOk(c) && c == b.(trades := c.trades) && Grows(b, c)
  {
    var c := AppendEvent(b, e).0;
    if c != b {
      PutEventOk(b.trades[e.trade], e.trade, e);
      forall id | id in c.trades
        ensures ChainOk(c.trades[id], id) && Linked(c, id)
      {
        assert id in b.trades && Linked(b, id);
        assert forall x :: BackedUp(c, x) <==> BackedUp(b, x);
      }
    }
  }

  lemma GrowsTrans(a: Book, b: Book, c: Book)
    requires Grows(a, b) && Grows(b, c)
    ensures Grows(a, c)
  {
    forall id | id in a.trades
      ensures a.trades[id].events <= c.trades[id].events
    {
      assert a.trades[id].events <= b.trades[id].events && b.trades[id].events <= c.trades[id].events;
    }
  }

  lemma {:induction false} AppendAllKeeps(b: Book, c: Command, r: Receipt, events: seq<Event>, n: nat)
    requires TradesOk(b) && n <= |events| && AppendAll(b, c, r, events, n).Ok?
    ensures var done := AppendAll(b, c, r, events, n).value;
            TradesOk(done) && done == b.(trades := done.trades) && Grows(b, done)
    decreases n
  {
    if n > 0 {
      AppendAllKeeps(b, c, r, events, n - 1);
      var done := AppendAll(b, c, r, events, n - 1).value;
      AppendKeeps(done, events[n - 1]);
      GrowsTrans(b, done, AppendEvent(done, events[n - 1]).0);
    }
  }

  // ---- Commands -------------------------------------------------------------------------

  lemma RecordKeepsTrades(b: Book, c: Command, r: Receipt, s: Snapshot)
    requires TradesOk(b) && c.id !in b.receipts
    ensures TradesOk(Record(b, c, r, s))
  {
    var u := Record(b, c, r, s);
    forall id | id in u.trades
      ensures ChainOk(u.trades[id], id) && Linked(u, id)
    {
      assert Linked(b, id);
      assert forall e :: BackedUp(b, e) ==> BackedUp(u, e);
    }
  }

  /** The book once a command is completed, whatever its events made of the trades. */
  function Done(b: Book, c: Command, r: Receipt, s: Snapshot, trades: map<string, Trade>): Book {
    MarkCompleted(Record(b, c, r, s).(trades := trades), c)
  }

  ghost predicate MayComplete(b: Book, c: Command, r: Receipt, s: Snapshot) {
    && CommandsOk(b) && c.id in b.commands && b.commands[c.id] == CommandRow(c, Prepared) && r.command == c
    && s.slot == Slot(c.lineage.session, c.lineage.symbol)
  }

  lemma CompletedCommandRows(b: Book, c: Command, r: Receipt, s: Snapshot, trades: map<string, Trade>, id: string)
    requires MayComplete(b, c, r, s) && id in b.commands
    ensures CommandOk(Done(b, c, r, s, trades), id)
  {
    var u := Done(b, c, r, s, trades);
    assert CommandOk(b, id);
    assert u.writes[|b.writes|] == Write(c.id, r.id, s);
    if id != c.id {
      WroteOther(b.writes, Write(c.id, r.id, s), id);
    }
  }

  lemma CompletedWrites(b: Book, c: Command, r: Receipt, s: Snapshot, trades: map<string, Trade>)
    requires MayComplete(b, c, r, s)
    ensures var u := Done(b, c, r, s, trades);
            && (forall i :: 0 <= i < |u.writes| ==> WriteOk(u, u.writes[i]))
            && (forall i, j :: 0 <= i < j < |u.writes| ==> u.writes[i].command != u.writes[j].command)
  {
    var u := Done(b, c, r, s, trades);
    assert CommandOk(b, c.id);
    forall i | 0 <= i < |u.writes|
      ensures WriteOk(u, u.writes[i]) && (i < |b.writes| ==> u.writes[i].command != c.id)
    {
      assert i < |b.writes| ==> WriteOk(b, b.writes[i]) && WroteFor(b.writes, b.writes[i].command);
    }
  }

  lemma CompletedSnapshots(b: Book, c: Command, r: Receipt, s: Snapshot, trades: map<string, Trade>, slot: Slot)
    requires MayComplete(b, c, r, s)
    ensures var u := Done(b, c, r, s, trades); LastWrite(u.writes, slot) == if slot in u.liquidity then Some(u.liquidity[slot]) else None
  {
    var u := Done(b, c, r, s, trades);
    assert u.writes[..|b.writes|] == b.writes;
  }

  lemma CompletedCommands(b: Book, c: Command, r: Receipt, s: Snapshot, trades: map<string, Trade>)
    requires MayComplete(b, c, r, s)
    ensures CommandsOk(Done(b, c, r, s, trades))
  {
    var u := Done(b, c, r, s, trades);
    forall id | id in u.commands
      ensures CommandOk(u, id)
    {
      CompletedCommandRows(b, c, r, s, trades, id);
    }
    CompletedWrites(b, c, r, s, trades);
    forall slot
      ensures LastWrite(u.writes, slot) == if slot in u.liquidity then Some(u.liquidity[slot]) else None
    {
      CompletedSnapshots(b, c, r, s, trades, slot);
    }
  }

  lemma WroteOther(writes: seq<Write>, w: Write, command: string)
    requires w.command != command
    ensures WroteFor(writes + [w], command) <==> WroteFor(writes, command)
  {
    if WroteFor(writes, command) {
      var i :| 0 <= i < |writes| && writes[i].command == command;
      assert (writes + [w])[i].command == command;
    }
  }

  /** A completion that changes the book is the recorded rows, the events and the status. */
  lemma CompleteShape(b: Book, c: Command, r: Receipt, s: Snapshot, events: seq<Event>)
    requires BookOk(b) && Complete(b, c, r, s, events).0 != b
    ensures MayComplete(b, c, r, s) && c.id !in b.receipts
    ensures var u := Complete(b, c, r, s, events).0; u == Done(b, c, r, s, u.trades) && TradesOk(u)
    ensures var u := Complete(b, c, r, s, events).0; Grows(b, b.(trades := u.trades))
  {
    assert c.id in b.commands && CommandOk(b, c.id);
    var recorded := Record(b, c, r, s);
    RecordKeepsTrades(b, c, r, s);
    AppendAllKeeps(recorded, c, r, events, |events|);
    MarkKeepsTrades(AppendAll(recorded, c, r, events, |events|).value, c);
  }

  lemma CompleteKeeps(b: Book, c: Command, r: Receipt, s: Snapshot, events: seq<Event>)
    requires BookOk(b)
    ensures BookOk(Complete(b, c, r, s, events).0) && Grows(b, Complete(b, c, r, s, events).0)
  {
    var u := Complete(b, c, r, s, events).0;
    if u != b {
      CompleteShape(b, c, r, s, events);
      DoneKeeps(b, c, r, s, u);
    } else {
      EverythingGrows(b);
    }
  }

  lemma EverythingGrows(b: Book)
    ensures Grows(b, b)
  {
  }

  lemma DoneKeeps(b: Book, c: Command, r: Receipt, s: Snapshot, u: Book)
    requires MayComplete(b, c, r, s) && c.id !in b.receipts && u == Done(b, c, r, s, u.trades) && TradesOk(u)
    requires Grows(b, b.(trades := u.trades))
    ensures BookOk(u) && Grows(b, u)
  {
    CompletedCommands(b, c, r, s, u.trades);
    DoneGrows(b, c, r, s, u.trades);
  }

  lemma DoneGrows(b: Book, c: Command, r: Receipt, s: Snapshot, trades: map<string, Trade>)
    requires c.id in b.commands && b.commands[c.id] == CommandRow(c, Prepared) && c.id !in b.receipts
    requires Grows(b, b.(trades := trades))
    ensures Grows(b, Done(b, c, r, s, trades))
  {
  }

  lemma MarkKeepsTrades(b: Book, c: Command)
    requires TradesOk(b)
    ensures TradesOk(MarkCompleted(b, c))
  {
    var u := MarkCompleted(b, c);
    forall id | id in u.trades
      ensures ChainOk(u.trades[id], id) && Linked(u, id)
    {
      assert Linked(b, id) && forall e :: BackedUp(b, e) <==> BackedUp(u, e);
    }
  }

  /** Commands without receipts do not matter to trades. */
  lemma TradesIgnoreCommands(b: Book, commands: map<string, CommandRow>)
    requires TradesOk(b)
    ensures TradesOk(b.(commands := commands))
  {
    var u := b.(commands := commands);
    forall id | id in u.trades
      ensures ChainOk(u.trades[id], id) && Linked(u, id)
    {
      assert Linked(b, id) && forall e :: BackedUp(b, e) <==> BackedUp(u, e);
    }
  }

  lemma NewCommandOk(b: Book, c: Command)
    requires CommandsOk(b) && c.id !in b.commands
    ensures CommandsOk(b.(commands := b.commands[c.id := CommandRow(c, Prepared)]))
  {
    var u := b.(commands := b.commands[c.id := CommandRow(c, Prepared)]);
    forall i | 0 <= i < |b.writes|
      ensures WriteOk(u, u.writes[i]) && u.writes[i].command != c.id
    {
      assert WriteOk(b, b.writes[i]);
    }
    forall id | id in u.commands
      ensures CommandOk(u, id)
    {
      assert id in b.commands ==> CommandOk(b, id);
    }
  }

  lemma PrepareKeeps(b: Book, c: Command)
    requires BookOk(b)
    ensures BookOk(Prepare(b, c).0) && Grows(b, Prepare(b, c).0)
  {
    var (u, r) := Prepare(b, c);
    if r.Ok? && r.value.1 {
      NewCommandOk(b, c);
      TradesIgnoreCommands(b, u.commands);
    } else {
      EverythingGrows(b);
    }
  }

  lemma NewTradeOk(b: Book, id: string, lineage: Lineage)
    requires TradesOk(b) && id !in b.trades
    ensures TradesOk(CreateTrade(b, id, lineage).0)
  {
    var u := CreateTrade(b, id, lineage).0;
    forall t | t in u.trades
      ensures ChainOk(u.trades[t], t) && Linked(u, t)
    {
      assert t in b.trades ==> Linked(b, t);
      assert forall e :: BackedUp(b, e) <==> BackedUp(u, e);
    }
  }

  lemma CreateKeeps(b: Book, id: string, lineage: Lineage)
    requires BookOk(b)
    ensures BookOk(CreateTrade(b, id, lineage).0) && Grows(b, CreateTrade(b, id, lineage).0)
  {
    if id in b.trades {
      EverythingGrows(b);
    } else {
      NewTradeOk(b, id, lineage);
      CommandsIgnoreTrades(b, CreateTrade(b, id, lineage).0.trades);
    }
  }

  lemma CommandsIgnoreTrades(b: Book, trades: map<string, Trade>)
    requires CommandsOk(b)
    ensures CommandsOk(b.(trades := trades))
  {
    var u := b.(trades := trades);
    assert forall id :: id in b.commands ==> CommandOk(b, id) && CommandOk(u, id);
    assert forall i :: 0 <= i < |b.writes| ==> WriteOk(b, b.writes[i]) && WriteOk(u, u.writes[i]);
  }

  lemma NextKeeps(b: Book, op: Op)
    requires BookOk(b)
    ensures BookOk(Next(b, op)) && Grows(b, Next(b, op))
  {
    match op
    case DoCreate(id, lineage) => CreateKeeps(b, id, lineage);
    case DoAppend(e) =>
      AppendKeeps(b, e);
      CommandsIgnoreTrades(b, AppendEvent(b, e).0.trades);
    case DoPrepare(c) => PrepareKeeps(b, c);
    case DoComplete(c, r, s, events) => CompleteKeeps(b, c, r, s, events);
  }

  // ---- Whole runs -----------------------------------------------------------------------

  lemma EmptyBookIsOk()
    ensures BookOk(Book(map[], map[], map[], map[], []))
  {
  }

  /** Every reachable trade verifies, and journals, receipts and snapshot writes only grow. */
  lemma {:induction false} BooksStayOk(b: Book, ops: seq<Op>)
    requires BookOk(b)
    ensures BookOk(Run(b, ops)) && Grows(b, Run(b, ops))
    decreases |ops|
  {
    if ops != [] {
      NextKeeps(b, ops[0]);
      BooksStayOk(Next(b, ops[0]), ops[1..]);
      GrowsTrans(b, Next(b, ops[0]), Run(b, ops));
    }
  }

  /** The snapshots a command wrote. */
  function WritesOf(writes: seq<Write>, command: string): seq<Write> {
    if writes == [] then []
    else WritesOf(writes[..|writes| - 1], command)
         + if writes[|writes| - 1].command == command then [writes[|writes| - 1]] else []
  }

  lemma {:induction false} WritesOfCount(writes: seq<Write>, command: string)
    requires forall i, j :: 0 <= i < j < |writes| ==> writes[i].command != writes[j].command
    ensures |WritesOf(writes, command)| == if WroteFor(writes, command) then 1 else 0
    decreases |writes|
  {
    if writes != [] {
      var n := |writes| - 1;
      WritesOfCount(writes[..n], command);
      assert writes == writes[..n] + [writes[n]];
      if writes[n].command != command {
        WroteOther(writes[..n], writes[n], command);
      }
    }
  }

  /** Over any replays and restarts a command's liquidity snapshot is written exactly once if it is
      COMPLETED and never otherwise, and it has a receipt in exactly the same case. */
  lemma CommandsTakeEffectOnce(ops: seq<Op>, id: string)
    requires id in Run(Book(map[], map[], map[], map[], []), ops).commands
    ensures var b := Run(Book(map[], map[], map[], map[], []), ops);
            && |WritesOf(b.writes, id)| == (if b.commands[id].status == Completed then 1 else 0)
            && (id in b.receipts <==> b.commands[id].status == Completed)
  {
    EmptyBookIsOk();
    BooksStayOk(Book(map[], map[], map[], map[], []), ops);
    var b := Run(Book(map[], map[], map[], map[], []), ops);
    assert CommandOk(b, id);
    WritesOfCount(b.writes, id);
  }

  /** Completing again, after anything else has happened, reports the same receipt and changes
      nothing, even if the replay carries another snapshot or other events. */
  lemma CompletionRepeats(b: Book, c: Command, r: Receipt, s: Snapshot, events: seq<Event>, ops: seq<Op>, s': Snapshot, events': seq<Event>)
    requires BookOk(b) && Complete(b, c, r, s, events).1.Ok? && s'.slot == s.slot
    ensures var t := Run(Complete(b, c, r, s, events).0, ops);
            Complete(t, c, r, s', events') == (t, Ok((r, false)))
  {
    var u := Complete(b, c, r, s, events).0;
    CompleteKeeps(b, c, r, s, events);
    CompletedHolds(b, c, r, s, events);
    BooksStayOk(u, ops);
    assert CommandOk(Run(u, ops), c.id);
  }

  lemma CompletedHolds(b: Book, c: Command, r: Receipt, s: Snapshot, events: seq<Event>)
    requires BookOk(b) && Complete(b, c, r, s, events).1.Ok?
    ensures var u := Complete(b, c, r, s, events).0;
            c.id in u.commands && u.commands[c.id] == CommandRow(c, Completed) && c.id in u.receipts && u.receipts[c.id] == r
  {
    if !(c.id in b.receipts) {
      RecordKeepsTrades(b, c, r, s);
      AppendAllKeeps(Record(b, c, r, s), c, r, events, |events|);
    }
  }

  // ---- What a verified journal says -----------------------------------------------------

  /** Two verifying journals of one trade with one head are the same journal and the same state. */
  lemma HeadCommitsToEvents(t: Trade, u: Trade, id: string)
    requires ChainOk(t, id) && ChainOk(u, id) && t.head == u.head
    ensures t.events == u.events && t.state == u.state && t.count == u.count
  {
    SameLength(t, u, id, |t.events|, |u.events|);
    SamePrefix(t, u, id, |t.events|);
    assert t.events[..|t.events|] == u.events[..|u.events|];
  }

  lemma SameLength(t: Trade, u: Trade, id: string, n: nat, m: nat)
    requires ChainOk(t, id) && ChainOk(u, id) && n <= |t.events| && m <= |u.events| && HeadBefore(t, n) == HeadBefore(u, m)
    ensures n == m
  {
    assert n > 0 ==> EventOk(t, id, n - 1);
    assert m > 0 ==> EventOk(u, id, m - 1);
  }

  lemma {:induction false} SamePrefix(t: Trade, u: Trade, id: string, n: nat)
    requires ChainOk(t, id) && ChainOk(u, id) && n <= |t.events| && n <= |u.events| && HeadBefore(t, n) == HeadBefore(u, n)
    ensures t.events[..n] == u.events[..n]
    decreases n
  {
    if n > 0 {
      assert EventOk(t, id, n - 1) && EventOk(u, id, n - 1);
      SamePrefix(t, u, id, n - 1);
      assert t.events[..n] == t.events[..n - 1] + [t.events[n - 1]] && u.events[..n] == u.events[..n - 1] + [u.events[n - 1]];
    }
  }
}
