/** The lifecycle methods of SimulationRepository, with its tables as fields. */
module SimRepository {
  import opened Common
  import opened SimJournal
  import opened SimHistory

  lemma {:induction false} RefusalSticks(b: Book, c: Command, r: Receipt, events: seq<Event>, n: nat, m: nat)
    requires n <= m <= |events| && AppendAll(b, c, r, events, n).Err?
    ensures AppendAll(b, c, r, events, m) == AppendAll(b, c, r, events, n)
    decreases m
  {
    if n < m {
      RefusalSticks(b, c, r, events, n, m - 1);
    }
  }

  class SimulationRepository {
    var trades: map<string, Trade>
    var commands: map<string, CommandRow>
    var receipts: map<string, Receipt>
    var liquidity: map<Slot, Snapshot>
    ghost var writes: seq<Write>

    ghost function View(): Book
      reads this
    {
      Book(trades, commands, receipts, liquidity, writes)
    }

    /** The stored tables, without the history of snapshot writes. */
    function Stored(): Book
      reads this
    {
      Book(trades, commands, receipts, liquidity, [])
    }

    ghost predicate Valid()
      reads this
    {
      BookOk(View())
    }

    constructor ()
      ensures Valid() && View() == Book(map[], map[], map[], map[], [])
    {
      trades, commands, receipts, liquidity, writes := map[], map[], map[], map[], [];
    }

    method CreateSimTrade(id: string, lineage: Lineage) returns (r: Result<bool, Error>)
      requires Valid()
      modifies this
      ensures Valid() && (View(), r) == CreateTrade(old(View()), id, lineage)
    {
      CreateKeeps(View(), id, lineage);
      if id in trades {
        return if trades[id].lineage == lineage then Ok(false) else Err(Conflict);
      }
      trades := trades[id := Trade(lineage, Pending, 1, None, 0, [])];
      r := Ok(true);
    }

    method AppendTradeEvent(e: Event) returns (r: Result<bool, Error>)
      requires Valid()
      modifies this
      ensures Valid() && Grows(old(View()), View()) && (View(), r) == AppendEvent(old(View()), e)
    {
      NextKeeps(View(), DoAppend(e));
      r := AppendTradeEventLocked(e);
    }

    /** `_append_trade_event_locked`. */
    method AppendTradeEventLocked(e: Event) returns (r: Result<bool, Error>)
      modifies this
      ensures (View(), r) == AppendEvent(old(View()), e)
    {
      if e.trade !in trades {
        return Err(Unknown);
      }
      var t := trades[e.trade];
      if HasEvent(t, EventSha(e)) {
        return Ok(false);
      }
      if e.lineage != t.lineage || e.sequence != t.nextSequence || e.previous != t.head {
        return Err(Conflict);
      }
      if (e.sequence == 1 && (e.from.Some? || e.to != t.state)) || (e.sequence != 1 && e.from != Some(t.state)) {
        return Err(Conflict);
      }
      if !BackedUp(Stored(), e) {
        return Err(Conflict);
      }
      var row := EventRow(EventSha(e), EventSha(e), e);
      trades := trades[e.trade := Trade(t.lineage, e.to, t.nextSequence + 1, Some(row.id), t.count + 1, t.events + [row])];
      r := Ok(true);
    }

    method PrepareCommand(c: Command) returns (r: Result<(CommandStatus, bool), Error>)
      requires Valid()
      modifies this
      ensures Valid() && (View(), r) == Prepare(old(View()), c)
    {
      PrepareKeeps(View(), c);
      if c.trade !in trades {
        return Err(Unknown);
      }
      if trades[c.trade].lineage != c.lineage {
        return Err(Conflict);
      }
      if c.id in commands {
        return if commands[c.id].command != c then Err(Conflict) else Ok((commands[c.id].status, false));
      }
      commands := commands[c.id := CommandRow(c, Prepared)];
      r := Ok((Prepared, true));
    }

    method CompleteCommand(c: Command, receipt: Receipt, s: Snapshot, events: seq<Event>) returns (r: Result<(Receipt, bool), Error>)
      requires Valid()
      modifies this
      ensures Valid() && Grows(old(View()), View()) && (View(), r) == Complete(old(View()), c, receipt, s, events)
    {
      CompleteKeeps(View(), c, receipt, s, events);
      r := CompleteLocked(c, receipt, s, events);
    }

    method CompleteLocked(c: Command, receipt: Receipt, s: Snapshot, events: seq<Event>) returns (r: Result<(Receipt, bool), Error>)
      modifies this
      ensures (View(), r) == Complete(old(View()), c, receipt, s, events)
    {
      if receipt.command != c {
        return Err(Conflict);
      }
      if s.slot != Slot(c.lineage.session, c.lineage.symbol) {
        return Err(BadInput);
      }
      if c.id !in commands {
        return Err(Unknown);
      }
      if commands[c.id].command != c {
        return Err(Conflict);
      }
      if c.id in receipts {
        return if receipts[c.id] != receipt || commands[c.id].status != Completed then Err(Conflict) else Ok((receipt, false));
      }
      if commands[c.id].status != Prepared {
        return Err(Conflict);
      }
      if c.trade !in trades {
        return Err(Unknown);
      }
      if trades[c.trade].lineage != c.lineage || ReceiptIdUsed(Stored(), receipt.id) {
        return Err(Conflict);
      }
      var failed := Effects(c, receipt, s, events);
      r := if failed.Some? then Err(failed.value) else Ok((receipt, true));
    }

    /** The writes of a completion; a refused event rolls all of them back. */
    method Effects(c: Command, receipt: Receipt, s: Snapshot, events: seq<Event>) returns (failed: Option<Error>)
      modifies this
      ensures match AppendAll(Record(old(View()), c, receipt, s), c, receipt, events, |events|)
              case Err(e) => failed == Some(e) && View() == old(View())
              case Ok(done) => failed == None && View() == MarkCompleted(done, c)
    {
      var trades0, commands0, receipts0, liquidity0 := trades, commands, receipts, liquidity;
      ghost var writes0 := writes;
      failed := WriteEffects(c, receipt, s, events);
      if failed.Some? {
        trades, commands, receipts, liquidity := trades0, commands0, receipts0, liquidity0;
        writes := writes0;
      } else {
        commands := commands[c.id := CommandRow(c, Completed)];
      }
    }

    method WriteEffects(c: Command, receipt: Receipt, s: Snapshot, events: seq<Event>) returns (failed: Option<Error>)
      modifies this
      ensures match AppendAll(Record(old(View()), c, receipt, s), c, receipt, events, |events|)
              case Err(e) => failed == Some(e)
              case Ok(done) => failed == None && View() == done
    {
      ghost var recorded := Record(View(), c, receipt, s);
      receipts, liquidity := receipts[c.id := receipt], liquidity[s.slot := s];
      writes := writes + [Write(c.id, receipt.id, s)];
      for n := 0 to |events|
        invariant AppendAll(recorded, c, receipt, events, n) == Ok(View())
      {
        var e := events[n];
        var kept := if e.command != Some(c.id) || e.receipt != Some(receipt.id) then Err(Conflict) else Ok(true);
        if kept.Ok? {
          kept := AppendTradeEventLocked(e);
        }
        if kept.Err? {
          RefusalSticks(recorded, c, receipt, events, n + 1, |events|);
          return Some(kept.error);
        }
      }
      failed := None;
    }

    /** `verify_trade_chain` on stored rows that anyone may have touched. */
    method VerifyTradeChain(id: string) returns (ok: bool)
      ensures ok <==> id in trades && ChainOk(trades[id], id)
    {
      if id !in trades {
        return false;
      }
      var t := trades[id];
      var sequence, previous, state := 1, None, Pending;
      for i := 0 to |t.events|
        invariant forall k :: 0 <= k < i ==> EventOk(t, id, k)
        invariant sequence == i + 1 && previous == HeadBefore(t, i) && state == StateBefore(t, i)
      {
        var row := t.events[i];
        var e := row.event;
        var fromOk := if sequence == 1 then e.from.None? && e.to == state else e.from == Some(state);
        if e.sequence != sequence || e.previous != previous || row.id != EventSha(e) || row.sha != row.id
           || e.trade != id || e.lineage.session != t.lineage.session || !fromOk {
          assert !EventOk(t, id, i);
          return false;
        }
        sequence, previous, state := sequence + 1, Some(row.id), e.to;
      }
      ok := t.state == state && t.nextSequence == sequence && t.head == previous && t.count == |t.events|;
    }
  }
}
