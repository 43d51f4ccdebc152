/** The simulator's lifecycle journal and its commands (simulation_repository.py): hash-chained
    trade events, and model commands whose completion overwrites a private liquidity snapshot.

    Every function is one transaction under the session and trade locks.  An event's id is the hash
    of its whole content, trade included; SHA-256 is a free constructor. */
module SimJournal {
  import opened Common

  datatype State = Pending | Active | Flat | Unresolved | NoFill | Blocked

  /** Session, admission, intent, symbol and side, as every artifact of one trade repeats them. */
  datatype Lineage = Lineage(session: string, admission: string, intent: string, symbol: string, side: string)

  datatype Event = Event(
    trade: string, lineage: Lineage, sequence: nat, previous: Option<EventId>, from: Option<State>, to: State,
    kind: string, command: Option<string>, receipt: Option<string>)

  datatype EventId = EventSha(event: Event)

  datatype EventRow = EventRow(id: EventId, sha: EventId, event: Event)

  datatype Trade = Trade(
    lineage: Lineage, state: State, nextSequence: nat, head: Option<EventId>, count: nat, events: seq<EventRow>)

  datatype Command = Command(id: string, trade: string, lineage: Lineage, body: string)

  datatype CommandStatus = Prepared | Completed | Failed

  datatype CommandRow = CommandRow(command: Command, status: CommandStatus)

  datatype Receipt = Receipt(id: string, command: Command, body: string)

  datatype Slot = Slot(session: string, symbol: string)

  datatype Snapshot = Snapshot(slot: Slot, schema: string, body: string)

  /** A snapshot as some command's completion wrote it. */
  datatype Write = Write(command: string, receipt: string, snapshot: Snapshot)

  datatype Book = Book(
    trades: map<string, Trade>,
    commands: map<string, CommandRow>,
    receipts: map<string, Receipt>,
    liquidity: map<Slot, Snapshot>,
    writes: seq<Write>)

  datatype Error = Unknown | Conflict | BadInput

  // ---- Trade events ---------------------------------------------------------------------

  predicate HasEvent(t: Trade, id: EventId) {
    exists i :: 0 <= i < |t.events| && t.events[i].id == id
  }

  predicate NextInLine(t: Trade, e: Event) {
    && e.lineage == t.lineage && e.sequence == t.nextSequence && e.previous == t.head
    && if e.sequence == 1 then e.from.None? && e.to == t.state else e.from == Some(t.state)
  }

  predicate ReceiptIdUsed(b: Book, id: string) {
    exists c :: c in b.receipts && b.receipts[c].id == id
  }

  /** An event either has no command behind it or a stored receipt of that command and trade. */
  predicate BackedUp(b: Book, e: Event) {
    && (e.command.Some? <==> e.receipt.Some?)
    && (e.receipt.Some? ==>
          e.command.value in b.receipts && b.receipts[e.command.value].id == e.receipt.value
          && b.receipts[e.command.value].command.trade == e.trade)
  }

  function PutEvent(t: Trade, e: Event): Trade {
    Trade(t.lineage, e.to, t.nextSequence + 1, Some(EventSha(e)), t.count + 1, t.events + [EventRow(EventSha(e), EventSha(e), e)])
  }

  /** `_append_trade_event_locked`: the journal, and whether the event is new. */
  function AppendEvent(b: Book, e: Event): (Book, Result<bool, Error>) {
    if e.trade !in b.trades then (b, Err(Unknown))
    else
      var t := b.trades[e.trade];
      if HasEvent(t, EventSha(e)) then (b, Ok(false))
      else if !NextInLine(t, e) || !BackedUp(b, e) then (b, Err(Conflict))
      else (b.(trades := b.trades[e.trade := PutEvent(t, e)]), Ok(true))
  }

  /** The events of a completion, one after another; the first refusal undoes all of them. */
  function AppendAll(b: Book, c: Command, r: Receipt, events: seq<Event>, n: nat): Result<Book, Error>
    requires n <= |events|
  {
    if n == 0 then Ok(b)
    else match AppendAll(b, c, r, events, n - 1)
    case Err(e) => Err(e)
    case Ok(done) =>
      var e := events[n - 1];
      if e.command != Some(c.id) || e.receipt != Some(r.id) then Err(Conflict)
      else var (next, kept) := AppendEvent(done, e); if kept.Err? then Err(kept.error) else Ok(next)
  }

  // ---- Trades and commands --------------------------------------------------------------

  function CreateTrade(b: Book, id: string, lineage: Lineage): (Book, Result<bool, Error>) {
    if id in b.trades then (b, if b.trades[id].lineage == lineage then Ok(false) else Err(Conflict))
    else (b.(trades := b.trades[id := Trade(lineage, Pending, 1, None, 0, [])]), Ok(true))
  }

  predicate TradeMatches(b: Book, c: Command) {
    c.trade in b.trades && b.trades[c.trade].lineage == c.lineage
  }

  /** `prepare_command`: the stored command's status, and whether this call stored it. */
  function Prepare(b: Book, c: Command): (Book, Result<(CommandStatus, bool), Error>) {
    if !TradeMatches(b, c) then (b, Err(if c.trade in b.trades then Conflict else Unknown))
    else if c.id in b.commands then
      (b, if b.commands[c.id].command != c then Err(Conflict) else Ok((b.commands[c.id].status, false)))
    else (b.(commands := b.commands[c.id := CommandRow(c, Prepared)]), Ok((Prepared, true)))
  }

  /** The rows of a completion before its events. */
  function Record(b: Book, c: Command, r: Receipt, s: Snapshot): Book {
    b.(receipts := b.receipts[c.id := r], liquidity := b.liquidity[s.slot := s], writes := b.writes + [Write(c.id, r.id, s)])
  }

  function MarkCompleted(b: Book, c: Command): Book {
    b.(commands := b.commands[c.id := CommandRow(c, Completed)])
  }

  /** `complete_command`: the terminal receipt, and whether this call made it. */
  function Complete(b: Book, c: Command, r: Receipt, s: Snapshot, events: seq<Event>): (Book, Result<(Receipt, bool), Error>) {
    if r.command != c then (b, Err(Conflict))
    else if s.slot != Slot(c.lineage.session, c.lineage.symbol) then (b, Err(BadInput))
    else if c.id !in b.commands then (b, Err(Unknown))
    else if b.commands[c.id].command != c then (b, Err(Conflict))
    else if c.id in b.receipts then
      (b, if b.receipts[c.id] != r || b.commands[c.id].status != Completed then Err(Conflict) else Ok((r, false)))
    else if b.commands[c.id].status != Prepared then (b, Err(Conflict))
    else if !TradeMatches(b, c) then (b, Err(if c.trade in b.trades then Conflict else Unknown))
    else if ReceiptIdUsed(b, r.id) then (b, Err(Conflict))
    else match AppendAll(Record(b, c, r, s), c, r, events, |events|)
    case Err(e) => (b, Err(e))
    case Ok(done) => (MarkCompleted(done, c), Ok((r, true)))
  }

  datatype Op =
    | DoCreate(id: string, lineage: Lineage)
    | DoAppend(event: Event)
    | DoPrepare(command: Command)
    | DoComplete(completed: Command, receipt: Receipt, snapshot: Snapshot, events: seq<Event>)

  function Next(b: Book, op: Op): Book {
    match op
    case DoCreate(id, lineage) => CreateTrade(b, id, lineage).0
    case DoAppend(e) => AppendEvent(b, e).0
    case DoPrepare(c) => Prepare(b, c).0
    case DoComplete(c, r, s, events) => Complete(b, c, r, s, events).0
  }

  function Run(b: Book, ops: seq<Op>): Book
    decreases |ops|
  {
    if ops == [] then b else Run(Next(b, ops[0]), ops[1..])
  }

  // ---- What the verifier accepts --------------------------------------------------------

  function StateBefore(t: Trade, i: nat): State
    requires i <= |t.events|
  {
    if i == 0 then Pending else t.events[i - 1].event.to
  }

  function HeadBefore(t: Trade, i: nat): Option<EventId>
    requires i <= |t.events|
  {
    if i == 0 then None else Some(t.events[i - 1].id)
  }

  ghost predicate EventOk(t: Trade, id: string, i: nat)
    requires i < |t.events|
  {
    var row := t.events[i];
    && row.id == EventSha(row.event) && row.sha == row.id
    && row.event.sequence == i + 1 && row.event.previous == HeadBefore(t, i)
    && row.event.trade == id && row.event.lineage.session == t.lineage.session
    && if i == 0 then row.event.from.None? && row.event.to == Pending else row.event.from == Some(StateBefore(t, i))
  }

  /** `verify_trade_chain` accepts exactly this (the method `VerifyTradeChain` is proved against it). */
  ghost predicate ChainOk(t: Trade, id: string) {
    && (forall i :: 0 <= i < |t.events| ==> EventOk(t, id, i))
    && t.state == StateBefore(t, |t.events|) && t.nextSequence == |t.events| + 1
    && t.head == HeadBefore(t, |t.events|) && t.count == |t.events|
  }

  // ---- What every run keeps -------------------------------------------------------------

  /** The snapshot a slot shows is the newest one written to it. */
  function LastWrite(writes: seq<Write>, slot: Slot): Option<Snapshot> {
    if writes == [] then None
    else if writes[|writes| - 1].snapshot.slot == slot then Some(writes[|writes| - 1].snapshot)
    else LastWrite(writes[..|writes| - 1], slot)
  }

  predicate WroteFor(writes: seq<Write>, command: string) {
    exists i :: 0 <= i < |writes| && writes[i].command == command
  }

  ghost predicate CommandOk(b: Book, id: string)
    requires id in b.commands
  {
    var row := b.commands[id];
    && row.command.id == id
    && (row.status == Completed <==> id in b.receipts) && (row.status == Completed <==> WroteFor(b.writes, id))
    && (id in b.receipts ==> b.receipts[id].command == row.command)
  }

  ghost predicate TradesOk(b: Book) {
    forall id :: id in b.trades ==> ChainOk(b.trades[id], id) && Linked(b, id)
  }

  ghost predicate CommandsOk(b: Book) {
    && (forall id :: id in b.commands ==> CommandOk(b, id))
    && (forall id :: id in b.receipts ==> id in b.commands)
    && (forall i :: 0 <= i < |b.writes| ==> WriteOk(b, b.writes[i]))
    && (forall i, j :: 0 <= i < j < |b.writes| ==> b.writes[i].command != b.writes[j].command)
    && (forall slot :: LastWrite(b.writes, slot) == if slot in b.liquidity then Some(b.liquidity[slot]) else None)
  }

  ghost predicate BookOk(b: Book) {
    TradesOk(b) && CommandsOk(b)
  }

  ghost predicate WriteOk(b: Book, w: Write) {
    && w.command in b.receipts && w.command in b.commands && b.receipts[w.command].id == w.receipt
    && w.snapshot.slot == Slot(b.commands[w.command].command.lineage.session, b.commands[w.command].command.lineage.symbol)
  }

  /** Every event repeats its trade's lineage and is backed by a receipt if it names one. */
  ghost predicate Linked(b: Book, id: string)
    requires id in b.trades
  {
    forall i :: 0 <= i < |b.trades[id].events| ==>
      b.trades[id].events[i].event.lineage == b.trades[id].lineage && BackedUp(b, b.trades[id].events[i].event)
  }

  /** Journals, receipts and snapshot writes are only added to, and COMPLETED is for ever. */
  ghost predicate Grows(b: Book, c: Book) {
    && (forall id :: id in b.trades ==>
          id in c.trades && b.trades[id].lineage == c.trades[id].lineage && b.trades[id].events <= c.trades[id].events)
    && (forall id :: id in b.receipts ==> id in c.receipts && c.receipts[id] == b.receipts[id])
    && (forall id :: id in b.commands ==> id in c.commands && c.commands[id].command == b.commands[id].command)
    && (forall id :: id in b.commands && b.commands[id].status != Prepared ==> c.commands[id] == b.commands[id])
    && b.writes <= c.writes
  }
}
