/** `TradeLifecycleRepository` of trade_lifecycle.py: the tables it updates in place, grouped by
    trade id.  Each method is one serialised transaction. */
module TradeRepository {
  import opened Common
  import opened TradeLifecycle
  import opened TradeReplay
  import opened TradeFacts

  class TradeLifecycleRepository {
    const firstSequence: nat

    /** The rows of `execution_trades`, `execution_trade_events` and `public_execution_events`. */
    var ledgers: map<string, Ledger>

    ghost predicate Valid()
      reads this
    {
      forall id :: id in ledgers ==> Good(ledgers[id]) && ledgers[id].row.trade.tradeId == id
    }

    constructor (firstSequence: nat)
      ensures Valid() && ledgers == map[] && this.firstSequence == firstSequence
    {
      this.firstSequence := firstSequence;
      ledgers := map[];
    }

    /** `_create_locked`: open the trade, or confirm that the stored one is the same trade. */
    method Create(t: NewTrade) returns (r: Result<Trade, Error>)
      requires Valid()
      modifies this
      ensures Valid()
      ensures r.Ok? ==> t.tradeId in ledgers && r.value == ledgers[t.tradeId].row && r.value.trade == t
      ensures ledgers == if r.Ok? && t.tradeId !in old(ledgers) then old(ledgers)[t.tradeId := Open(t, firstSequence)]
                         else old(ledgers)
      ensures r.Err? <==> t.quantity <= 0.0 || t.maxHoldingMs <= 0
                          || (t.tradeId in old(ledgers) && old(ledgers)[t.tradeId].row.trade != t)
    {
      if t.quantity <= 0.0 || t.maxHoldingMs <= 0 {
        return Err(InvalidTrade);
      }
      if t.tradeId in ledgers {
        if ledgers[t.tradeId].row.trade != t {
          return Err(IdentityConflict);
        }
        return Ok(ledgers[t.tradeId].row);
      }
      OpenIsGood(t, firstSequence);
      ledgers := ledgers[t.tradeId := Open(t, firstSequence)];
      r := Ok(ledgers[t.tradeId].row);
    }

    /** `create_with_execution_event`: the trade and its creation fact commit together or not at all. */
    method CreateWithExecutionEvent(t: NewTrade, key: string, build: Builder) returns (r: Result<(Trade, PublicEvent), Error>)
      requires Valid()
      modifies this
      ensures Valid()
      ensures var stored := if t.tradeId in old(ledgers) then Some(old(ledgers)[t.tradeId]) else None;
              if t.quantity <= 0.0 || t.maxHoldingMs <= 0 then r == Err(InvalidTrade) && ledgers == old(ledgers)
              else match CreateWithFact(stored, t, firstSequence, key, build)
                   case Err(why) => r == Err(why) && ledgers == old(ledgers)
                   case Ok((l, event)) => r == Ok((l.row, event)) && ledgers == old(ledgers)[t.tradeId := l]
    {
      if t.quantity <= 0.0 || t.maxHoldingMs <= 0 {
        return Err(InvalidTrade);
      }
      if t.tradeId in ledgers && ledgers[t.tradeId].row.trade != t {
        return Err(IdentityConflict);
      }
      OpenIsGood(t, firstSequence);
      var l := if t.tradeId in ledgers then ledgers[t.tradeId] else Open(t, firstSequence);
      if Find(l.facts, key).None? && l.row.version != 0 {
        return Err(CreationFactMissing);
      }
      var done := AppendEventLocked(l, key, 0, build);
      if done.Err? {
        return Err(done.error);
      }
      GoodAppend(l, key, 0, build);
      ledgers := ledgers[t.tradeId := done.value.0];
      r := Ok((done.value.0.row, done.value.1));
    }

    /** The seven `_merge_identifier` calls, column by column. */
    method MergeColumns(current: Ids, supplied: Ids) returns (merged: Option<Ids>)
      ensures merged == if Mergeable(current, supplied) then Some(current + supplied) else None
    {
      var ids := current;
      for i := 0 to |FIELDS|
        invariant forall f :: f in FIELDS[..i] && f in supplied ==>
                    !Blank(supplied[f]) && (f in current ==> current[f] == supplied[f])
        invariant forall f :: f in ids <==> f in current || (f in FIELDS[..i] && f in supplied)
        invariant forall f :: f in ids ==> ids[f] == if f in current then current[f] else supplied[f]
      {
        var f := FIELDS[i];
        if f in supplied {
          if Blank(supplied[f]) || (f in current && current[f] != supplied[f]) {
            return None;
          }
          if f !in current {
            ids := ids[f := supplied[f]];
          }
        }
      }
      forall f: Field
        ensures f in FIELDS[..|FIELDS|]
      {
        AllFields(f);
        assert FIELDS[..|FIELDS|] == FIELDS;
      }
      assert ids == current + supplied;
      merged := Some(ids);
    }

    /** `_transition_locked`: the checks one by one, then the row, its journal entry and its head. */
    method TransitionLocked(current: Trade, req: Request) returns (r: Result<Entry, Error>)
      ensures r == Apply(current, req)
    {
      if req.target !in Allowed(current.state) {
        return Err(InvalidTransition);
      }
      var filled := if req.filled.Some? then req.filled.value else current.filled;
      if !(0.0 <= filled <= current.trade.quantity) {
        return Err(FilledOutside);
      }
      if filled < current.filled {
        return Err(FilledNotMonotonic);
      }
      if req.firstFill.Some? && current.firstFill.Some? && req.firstFill != current.firstFill {
        return Err(FirstFillImmutable);
      }
      var first := if current.firstFill.Some? then current.firstFill else req.firstFill;
      if filled > 0.0 && first.None? {
        return Err(FirstFillMissing);
      }
      if filled == 0.0 && first.Some? {
        return Err(FirstFillWithoutFill);
      }
      if req.target == Cancelled && filled > 0.0 {
        return Err(PartialCancel);
      }
      if req.target in EXPOSED && filled <= 0.0 {
        return Err(NeedsFill);
      }
      if first.Some? && first.value + current.trade.maxHoldingMs > MAX_INSTANT {
        return Err(TimeoutOverflow);
      }
      var ids := MergeColumns(current.ids, req.ids);
      if ids.None? {
        return Err(IdentifierRefused);
      }
      var payload := Moved(req.event, filled, first, ids.value);
      var sha := EventSha(current.trade.tradeId, Some(current.state), req.target, req.eventType, payload, Some(current.head));
      r := Ok(Entry(Some(current.state), req.target, req.eventType, payload, Some(current.head), sha));
    }

    method Transition(id: string, req: Request) returns (r: Result<Trade, Error>)
      requires Valid()
      modifies this
      ensures Valid()
      ensures if id !in old(ledgers) then r == Err(UnknownTrade) && ledgers == old(ledgers)
              else match TradeFacts.Transition(old(ledgers)[id], req)
                   case Err(why) => r == Err(why) && ledgers == old(ledgers)
                   case Ok(l) => r == Ok(l.row) && ledgers == old(ledgers)[id := l]
    {
      if id !in ledgers {
        return Err(UnknownTrade);
      }
      var l := ledgers[id];
      var e := TransitionLocked(l.row, req);
      if e.Err? {
        return Err(e.error);
      }
      GoodTransition(l, req);
      ledgers := ledgers[id := l.(row := Advance(l.row, e.value), journal := l.journal + [e.value])];
      r := Ok(ledgers[id].row);
    }

    /** `_append_execution_event_locked` on the ledger a transaction is building. */
    method AppendEventLocked(l: Ledger, key: string, expected: nat, build: Builder)
      returns (r: Result<(Ledger, PublicEvent), Error>)
      ensures r == AppendFact(l, key, expected, build)
    {
      var existing := Find(l.facts, key);
      if existing.Some? {
        var row := existing.value;
        if row.version != expected {
          return Err(IdentityConflict);
        }
        var misfit := Misfit(row.event, l.row, false);
        if misfit.Some? {
          return Err(misfit.value);
        }
        var rebuilt := build(row.seqNo);
        if rebuilt.seqNo != row.seqNo {
          return Err(WrongSequence);
        }
        misfit := Misfit(rebuilt, l.row, false);
        if misfit.Some? {
          return Err(misfit.value);
        }
        if rebuilt != row.event {
          return Err(IdentityConflict);
        }
        return Ok((l, row.event));
      }
      if l.row.version != expected {
        return Err(StateMoved);
      }
      var event := build(l.nextSeq);
      if event.seqNo != l.nextSeq {
        return Err(WrongSequence);
      }
      var misfit := Misfit(event, l.row, true);
      if misfit.Some? {
        return Err(misfit.value);
      }
      var grown := l.facts + [Fact(key, l.nextSeq, expected, event)];
      r := Ok((l.(facts := grown, nextSeq := l.nextSeq + 1), event));
    }

    /** `transition_with_execution_event`: state and public fact commit together or not at all; a
        known fact key is only verified. */
    method TransitionWithExecutionEvent(id: string, req: Request, key: string, build: Builder)
      returns (r: Result<(Trade, PublicEvent), Error>)
      requires Valid()
      modifies this
      ensures Valid()
      ensures if id !in old(ledgers) then r == Err(UnknownTrade) && ledgers == old(ledgers)
              else match TransitionWithFact(old(ledgers)[id], req, key, build)
                   case Err(why) => r == Err(why) && ledgers == old(ledgers)
                   case Ok((l, event)) => r == Ok((l.row, event)) && ledgers == old(ledgers)[id := l]
    {
      if id !in ledgers {
        return Err(UnknownTrade);
      }
      var l := ledgers[id];
      var existing := Find(l.facts, key);
      if existing.Some? {
        if existing.value.event.lifecycle != req.target || !AcceptsReplay(l.journal, existing.value.version, req) {
          return Err(IdentityConflict);
        }
        var again := AppendEventLocked(l, key, existing.value.version, build);
        if again.Err? {
          return Err(again.error);
        }
        assert ledgers[id := again.value.0] == ledgers;
        return Ok((l.row, again.value.1));
      }
      var e := TransitionLocked(l.row, req);
      if e.Err? {
        return Err(e.error);
      }
      var moved := l.(row := Advance(l.row, e.value), journal := l.journal + [e.value]);
      var done := AppendEventLocked(moved, key, moved.row.version, build);
      if done.Err? {
        return Err(done.error);
      }
      GoodTransitionWithFact(l, req, key, build);
      ledgers := ledgers[id := done.value.0];
      r := Ok((done.value.0.row, done.value.1));
    }

    /** The chain of every stored trade verifies. */
    method Verify(id: string) returns (ok: bool)
      requires Valid()
      ensures ok <==> id in ledgers
    {
      if id !in ledgers {
        return false;
      }
      GoodMeans(ledgers[id]);
      ok := VerifyChain(id, ledgers[id].journal, Some(ledgers[id].row.head));
    }
  }
}
