/** Public execution facts beside the lifecycle journal of trade_lifecycle.py, and the retries
    that must find them again. */
module TradeFacts {
  import opened Common
  import opened TradeLifecycle
  import opened TradeReplay

  datatype PublicEvent = PublicEvent(
    eventId: string, messageId: string, seqNo: int, tradeId: string, lineage: string, lifecycle: State, body: string)

  datatype Fact = Fact(key: string, seqNo: nat, version: nat, event: PublicEvent)

  /** What the three tables hold for one trade. */
  datatype Ledger = Ledger(row: Trade, journal: seq<Entry>, nextSeq: nat, facts: seq<Fact>)

  type Builder = nat -> PublicEvent

  /** `_validate_execution_event`. */
  function Misfit(ev: PublicEvent, r: Trade, requireState: bool): Option<Error> {
    if ev.messageId != ev.eventId then Some(WrongLineage)
    else if ev.tradeId != r.trade.tradeId || ev.lineage != r.trade.lineage
            || (requireState && ev.lifecycle != r.state) then Some(IdentityConflict)
    else None
  }

  function Find(facts: seq<Fact>, key: string): Option<Fact> {
    if facts == [] then None else if facts[0].key == key then Some(facts[0]) else Find(facts[1..], key)
  }

  /** `_append_execution_event_locked`. */
  function AppendFact(l: Ledger, key: string, expected: nat, build: Builder): Result<(Ledger, PublicEvent), Error> {
    match Find(l.facts, key)
    case Some(stored) =>
      if stored.version != expected then Err(IdentityConflict)
      else if Misfit(stored.event, l.row, false).Some? then Err(Misfit(stored.event, l.row, false).value)
      else
        var rebuilt := build(stored.seqNo);
        if rebuilt.seqNo != stored.seqNo then Err(WrongSequence)
        else if Misfit(rebuilt, l.row, false).Some? then Err(Misfit(rebuilt, l.row, false).value)
        else if rebuilt != stored.event then Err(IdentityConflict)
        else Ok((l, stored.event))
    case None =>
      if l.row.version != expected then Err(StateMoved)
      else
        var event := build(l.nextSeq);
        if event.seqNo != l.nextSeq then Err(WrongSequence)
        else if Misfit(event, l.row, true).Some? then Err(Misfit(event, l.row, true).value)
        else Ok((l.(facts := l.facts + [Fact(key, l.nextSeq, expected, event)], nextSeq := l.nextSeq + 1), event))
  }

  function Transition(l: Ledger, req: Request): Result<Ledger, Error> {
    match Apply(l.row, req)
    case Err(why) => Err(why)
    case Ok(e) => Ok(l.(row := Advance(l.row, e), journal := l.journal + [e]))
  }

  /** `transition_with_execution_event`: one atomic step, or a verified replay. */
  function TransitionWithFact(l: Ledger, req: Request, key: string, build: Builder): Result<(Ledger, PublicEvent), Error> {
    match Find(l.facts, key)
    case Some(stored) =>
      if stored.event.lifecycle != req.target then Err(IdentityConflict)
      else if !AcceptsReplay(l.journal, stored.version, req) then Err(IdentityConflict)
      else AppendFact(l, key, stored.version, build)
    case None =>
      match Transition(l, req)
      case Err(why) => Err(why)
      case Ok(moved) => AppendFact(moved, key, moved.row.version, build)
  }

  function Open(t: NewTrade, firstSeq: nat): Ledger {
    Ledger(Opening(t), [CreationEntry(t)], firstSeq, [])
  }

  /** `create_with_execution_event` on what is stored for the trade id, if anything. */
  function CreateWithFact(stored: Option<Ledger>, t: NewTrade, firstSeq: nat, key: string, build: Builder)
    : Result<(Ledger, PublicEvent), Error>
  {
    if stored.Some? && stored.value.row.trade != t then Err(IdentityConflict)
    else
      var l := if stored.Some? then stored.value else Open(t, firstSeq);
      if Find(l.facts, key).None? && l.row.version != 0 then Err(CreationFactMissing)
      else AppendFact(l, key, 0, build)
  }

  ghost predicate FactsOk(l: Ledger) {
    && (forall i, k :: 0 <= i < k < |l.facts| ==> l.facts[i].key != l.facts[k].key && l.facts[i].seqNo < l.facts[k].seqNo)
    && (forall i :: 0 <= i < |l.facts| ==>
          var f := l.facts[i];
          f.seqNo < l.nextSeq && f.event.seqNo == f.seqNo && f.version < |l.journal|
          && f.event.lifecycle == l.journal[f.version].to && Misfit(f.event, l.row, false).None?)
  }

  /** Journal, materialised row and fact log belong together. */
  ghost predicate Good(l: Ledger) {
    && Lawful(l.row.trade, l.journal)
    && l.row == StateAt(l.row.trade, l.journal, |l.journal| - 1)
    && FactsOk(l)
  }

  /** `later` came from `l` by more transactions. */
  ghost predicate Extends(l: Ledger, later: Ledger) {
    l.row.trade == later.row.trade && l.journal <= later.journal && l.facts <= later.facts
  }

  // ---- Lemmas ---------------------------------------------------------------------------

  lemma {:induction false} FindIff(facts: seq<Fact>, key: string)
    ensures Find(facts, key).None? <==> forall i :: 0 <= i < |facts| ==> facts[i].key != key
    ensures Find(facts, key).Some? ==> Find(facts, key).value in facts && Find(facts, key).value.key == key
    decreases |facts|
  {
    if facts != [] {
      FindIff(facts[1..], key);
      assert facts == [facts[0]] + facts[1..];
    }
  }

  lemma {:induction false} FindIsStable(facts: seq<Fact>, more: seq<Fact>, key: string)
    requires facts <= more && Find(facts, key).Some?
    ensures Find(more, key) == Find(facts, key)
    decreases |facts|
  {
    if facts[0].key != key {
      FindIsStable(facts[1..], more[1..], key);
    }
  }

  lemma {:induction false} FindLast(facts: seq<Fact>, f: Fact)
    requires Find(facts, f.key).None?
    ensures Find(facts + [f], f.key) == Some(f)
    decreases |facts|
  {
    if facts != [] {
      assert (facts + [f])[1..] == facts[1..] + [f];
      FindLast(facts[1..], f);
    }
  }

  lemma OpenIsGood(t: NewTrade, firstSeq: nat)
    requires t.quantity > 0.0
    ensures Good(Open(t, firstSeq))
  {
  }

  /** The row is sound and the chain verifies in every good ledger. */
  lemma GoodMeans(l: Ledger)
    requires Good(l)
    ensures RowOk(l.row) && |l.journal| == l.row.version + 1
    ensures ChainVerifies(l.row.trade.tradeId, l.journal, l.row.head)
  {
    StatesAreOk(l.row.trade, l.journal, |l.journal| - 1);
    LawfulVerifies(l.row.trade, l.journal, |l.journal| - 1);
    assert l.journal[..|l.journal|] == l.journal;
  }

  lemma GoodTransition(l: Ledger, req: Request)
    requires Good(l) && Transition(l, req).Ok?
    ensures Good(Transition(l, req).value) && Extends(l, Transition(l, req).value)
  {
    LawfulSnoc(l.row.trade, l.journal, req);
  }

  /** What a new fact adds to a good ledger. */
  lemma NewFactIsGood(l: Ledger, key: string, event: PublicEvent)
    requires Good(l) && Find(l.facts, key).None? && event.seqNo == l.nextSeq && Misfit(event, l.row, true).None?
    ensures Good(l.(facts := l.facts + [Fact(key, l.nextSeq, l.row.version, event)], nextSeq := l.nextSeq + 1))
  {
    FindIff(l.facts, key);
    StatesAreOk(l.row.trade, l.journal, |l.journal| - 1);
  }

  lemma GoodAppend(l: Ledger, key: string, expected: nat, build: Builder)
    requires Good(l) && AppendFact(l, key, expected, build).Ok?
    ensures var l2 := AppendFact(l, key, expected, build).value.0; Good(l2) && Extends(l, l2)
    ensures var (l2, ev) := AppendFact(l, key, expected, build).value;
            Find(l2.facts, key).Some? && Find(l2.facts, key).value.event == ev
            && Find(l2.facts, key).value.version == expected && ev == build(Find(l2.facts, key).value.seqNo)
  {
    if Find(l.facts, key).None? {
      NewFactIsGood(l, key, build(l.nextSeq));
      FindLast(l.facts, Fact(key, l.nextSeq, expected, build(l.nextSeq)));
    } else {
      FindIff(l.facts, key);
    }
  }

  lemma GoodTransitionWithFact(l: Ledger, req: Request, key: string, build: Builder)
    requires Good(l) && TransitionWithFact(l, req, key, build).Ok?
    ensures var l2 := TransitionWithFact(l, req, key, build).value.0; Good(l2) && Extends(l, l2)
  {
    match Find(l.facts, key)
    case Some(stored) => GoodAppend(l, key, stored.version, build);
    case None =>
      GoodTransition(l, req);
      var moved := Transition(l, req).value;
      GoodAppend(moved, key, moved.row.version, build);
  }

  lemma ExtendsTrans(a: Ledger, b: Ledger, c: Ledger)
    requires Extends(a, b) && Extends(b, c)
    ensures Extends(a, c)
  {
  }

  /** A replayed fact binds its retry to the stored event. */
  lemma AppendAgain(l: Ledger, key: string, expected: nat, build: Builder, later: Ledger)
    requires Good(l) && AppendFact(l, key, expected, build).Ok?
    requires Good(later) && Extends(AppendFact(l, key, expected, build).value.0, later)
    ensures AppendFact(later, key, expected, build) == Ok((later, AppendFact(l, key, expected, build).value.1))
  {
    var (l2, ev) := AppendFact(l, key, expected, build).value;
    GoodAppend(l, key, expected, build);
    FindIsStable(l2.facts, later.facts, key);
    FindIff(later.facts, key);
  }

  /** Retrying a transition that once succeeded, after any later history: it returns the stored
      fact and changes nothing exactly when the entry before it kept its own event type or the
      request carried everything recorded before it; otherwise it is refused. */
  lemma RetryIsExact(l: Ledger, req: Request, key: string, build: Builder, later: Ledger)
    requires Good(l) && Find(l.facts, key).None? && TransitionWithFact(l, req, key, build).Ok?
    requires Good(later) && Extends(TransitionWithFact(l, req, key, build).value.0, later)
    ensures TransitionWithFact(later, req, key, build)
            == if !Mislabelled(l.journal, l.row.version) || Resupplies(l.row, req)
               then Ok((later, TransitionWithFact(l, req, key, build).value.1))
               else Err(IdentityConflict)
  {
    var moved := Transition(l, req).value;
    var stored := TransitionStoresFact(l, req, key, build, later);
    GoodTransition(l, req);
    AppendAgain(moved, key, moved.row.version, build, later);
    RetryAcceptance(l, req, later.journal);
  }

  /** A successful transition's fact is found again in every later ledger. */
  lemma TransitionStoresFact(l: Ledger, req: Request, key: string, build: Builder, later: Ledger) returns (stored: Fact)
    requires Good(l) && Find(l.facts, key).None? && TransitionWithFact(l, req, key, build).Ok?
    requires Good(later) && Extends(TransitionWithFact(l, req, key, build).value.0, later)
    ensures Find(later.facts, key) == Some(stored)
    ensures stored.version == l.row.version + 1 && stored.event.lifecycle == req.target
    ensures Transition(l, req).value.journal <= later.journal
  {
    var moved := Transition(l, req).value;
    GoodTransition(l, req);
    GoodAppend(moved, key, moved.row.version, build);
    var l2 := AppendFact(moved, key, moved.row.version, build).value.0;
    FindIsStable(l2.facts, later.facts, key);
    stored := Find(l2.facts, key).value;
    FindIff(l2.facts, key);
    var i :| 0 <= i < |l2.facts| && l2.facts[i] == stored;
  }

  /** Creating again with the same fact, after any later history, returns the stored fact and
      changes nothing. */
  lemma CreationRetryIsExact(stored: Option<Ledger>, t: NewTrade, firstSeq: nat, key: string, build: Builder, later: Ledger)
    requires t.quantity > 0.0 && (stored.Some? ==> Good(stored.value)) && CreateWithFact(stored, t, firstSeq, key, build).Ok?
    requires Good(later) && Extends(CreateWithFact(stored, t, firstSeq, key, build).value.0, later)
    ensures CreateWithFact(Some(later), t, firstSeq, key, build)
            == Ok((later, CreateWithFact(stored, t, firstSeq, key, build).value.1))
  {
    var l := if stored.Some? then stored.value else Open(t, firstSeq);
    OpenIsGood(t, firstSeq);
    GoodAppend(l, key, 0, build);
    AppendAgain(l, key, 0, build, later);
    FindIsStable(AppendFact(l, key, 0, build).value.0.facts, later.facts, key);
  }

  lemma RetryAcceptance(l: Ledger, req: Request, j: seq<Entry>)
    requires Good(l) && Transition(l, req).Ok? && Transition(l, req).value.journal <= j
    ensures AcceptsReplay(j, l.row.version + 1, req)
            <==> !Mislabelled(l.journal, l.row.version) || Resupplies(l.row, req)
  {
    var moved := Transition(l, req).value;
    GoodTransition(l, req);
    var t, v := l.row.trade, l.row.version + 1;
    StateOfPrefix(t, l.journal, moved.journal, v - 1);
    ReplayIsCompleteIff(t, moved.journal, v, req);
    ReplaySurvivesLaterEntries(moved.journal, j, v, req);
  }

  // ---- Any history of one trade ---------------------------------------------------------

  datatype Command =
    | Move(req: Request)
    | MoveWithFact(req: Request, key: string, build: Builder)
    | Publish(key: string, expected: nat, build: Builder)
    | ReserveSequence

  /** One transaction; an error rolls back. */
  function Exec(l: Ledger, c: Command): Ledger {
    match c
    case Move(req) => (match Transition(l, req) case Ok(m) => m case Err(_) => l)
    case MoveWithFact(req, key, build) =>
      (match TransitionWithFact(l, req, key, build) case Ok(m) => m.0 case Err(_) => l)
    case Publish(key, expected, build) => (match AppendFact(l, key, expected, build) case Ok(m) => m.0 case Err(_) => l)
    case ReserveSequence => l.(nextSeq := l.nextSeq + 1)
  }

  function ExecAll(l: Ledger, cs: seq<Command>): Ledger
    decreases |cs|
  {
    if cs == [] then l else ExecAll(Exec(l, cs[0]), cs[1..])
  }

  lemma {:induction false} HistoriesStayGood(l: Ledger, cs: seq<Command>)
    requires Good(l)
    ensures Good(ExecAll(l, cs)) && Extends(l, ExecAll(l, cs))
    decreases |cs|
  {
    if cs != [] {
      var c := cs[0];
      match c {
        case Move(req) => if Transition(l, req).Ok? { GoodTransition(l, req); }
        case MoveWithFact(req, key, build) =>
          if TransitionWithFact(l, req, key, build).Ok? { GoodTransitionWithFact(l, req, key, build); }
        case Publish(key, expected, build) =>
          if AppendFact(l, key, expected, build).Ok? { GoodAppend(l, key, expected, build); }
        case ReserveSequence =>
      }
      HistoriesStayGood(Exec(l, c), cs[1..]);
      ExtendsTrans(l, Exec(l, c), ExecAll(l, cs));
    }
  }

  /** Every reachable trade: the row is the fold of a verifying journal of length version + 1,
      and fills, first fill, timeout and identifiers only ever progressed. */
  lemma EveryReachableTrade(t: NewTrade, firstSeq: nat, cs: seq<Command>, more: seq<Command>)
    requires t.quantity > 0.0
    ensures var l := ExecAll(Open(t, firstSeq), cs);
            && l.row.trade == t && Lawful(t, l.journal)
            && RowOk(l.row) && |l.journal| == l.row.version + 1
            && l.row == StateAt(t, l.journal, l.row.version)
            && ChainVerifies(t.tradeId, l.journal, l.row.head)
            && Progress(l.row, ExecAll(l, more).row)
  {
    OpenIsGood(t, firstSeq);
    HistoriesStayGood(Open(t, firstSeq), cs);
    var l := ExecAll(Open(t, firstSeq), cs);
    GoodMeans(l);
    LaterProgress(l, more);
  }

  lemma LaterProgress(l: Ledger, more: seq<Command>)
    requires Good(l)
    ensures Progress(l.row, ExecAll(l, more).row)
  {
    HistoriesStayGood(l, more);
    ExtensionsProgress(l, ExecAll(l, more));
  }

  lemma ExtensionsProgress(l: Ledger, later: Ledger)
    requires Good(l) && Good(later) && Extends(l, later)
    ensures Progress(l.row, later.row)
  {
    GoodMeans(l);
    GoodMeans(later);
    StateOfPrefix(l.row.trade, l.journal, later.journal, l.row.version);
    HistoryProgresses(l.row.trade, later.journal, l.row.version, later.row.version);
  }
}
