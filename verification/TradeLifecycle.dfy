/** The durable trade of trade_lifecycle.py: its state machine, its hash-chained journal and the
    row materialised from it, as values.

    Quantities are reals, instants are integer milliseconds.  The event hash is a free
    constructor over exactly the fields `_event_sha` covers.  `lineage` stands for the immutable
    columns the lifecycle only compares as a whole. */
module TradeLifecycle {
  import opened Common

  datatype State =
    | Received | EntryPending | Protecting | Active | ExitingStop | ExitingTarget | ExitingTimeout
    | ExitingEmergency | Flat | Cancelled | FailedBlocked

  function Allowed(s: State): set<State> {
    match s
    case Received => {EntryPending, Cancelled, FailedBlocked}
    case EntryPending => {EntryPending, Protecting, Cancelled, FailedBlocked}
    case Protecting => {Protecting, Active, ExitingStop, ExitingTarget, ExitingEmergency, FailedBlocked}
    case Active => {Active, ExitingStop, ExitingTarget, ExitingTimeout, ExitingEmergency, FailedBlocked}
    case ExitingStop => {State.Flat, FailedBlocked}
    case ExitingTarget => {State.Flat, FailedBlocked}
    case ExitingTimeout => {State.Flat, FailedBlocked}
    case ExitingEmergency => {State.Flat, FailedBlocked}
    case FailedBlocked => {ExitingEmergency, State.Flat}
    case Flat => {}
    case Cancelled => {}
  }

  /** States in which the account holds a position. */
  const EXPOSED: set<State> := {Protecting, Active, ExitingStop, ExitingTarget, ExitingTimeout, ExitingEmergency}

  datatype Field =
    | EntryExchangeId | StopClientId | StopExchangeId | TargetClientId | TargetExchangeId | CloseClientId
    | CloseExchangeId

  const FIELDS: seq<Field> :=
    [EntryExchangeId, StopClientId, StopExchangeId, TargetClientId, TargetExchangeId, CloseClientId, CloseExchangeId]

  lemma AllFields(f: Field)
    ensures f in FIELDS
  {
    match f
    case EntryExchangeId => assert FIELDS[0] == f;
    case StopClientId => assert FIELDS[1] == f;
    case StopExchangeId => assert FIELDS[2] == f;
    case TargetClientId => assert FIELDS[3] == f;
    case TargetExchangeId => assert FIELDS[4] == f;
    case CloseClientId => assert FIELDS[5] == f;
    case CloseExchangeId => assert FIELDS[6] == f;
  }

  /** Order identifiers recorded so far; an absent key is a null column. */
  type Ids = map<Field, string>

  datatype NewTrade = NewTrade(tradeId: string, quantity: real, maxHoldingMs: int, lineage: string)

  datatype Payload =
    | Created(trade: NewTrade)
    | Moved(event: string, filled: real, firstFill: Option<int>, ids: Ids)

  datatype Digest = EventSha(
    tradeId: string, from: Option<State>, to: State, eventType: string, payload: Payload, previous: Option<Digest>)

  datatype Entry = Entry(
    from: Option<State>, to: State, eventType: string, payload: Payload, previous: Option<Digest>, sha: Digest)

  /** One `execution_trades` row. */
  datatype Trade = Trade(
    trade: NewTrade, state: State, filled: real, firstFill: Option<int>, timeoutAt: Option<int>, ids: Ids,
    version: nat, head: Digest)

  datatype Request = Request(
    target: State, eventType: string, event: string, filled: Option<real>, firstFill: Option<int>, ids: Ids)

  datatype Error =
    | InvalidTrade | InvalidTransition | FilledOutside | FilledNotMonotonic | FirstFillImmutable
    | FirstFillMissing | FirstFillWithoutFill | PartialCancel | NeedsFill | TimeoutOverflow | IdentifierRefused
    | UnknownTrade | IdentityConflict | StateMoved | WrongSequence | WrongLineage
    | CreationFactMissing

  const CREATED := "CREATED"

  /** The last instant a timestamp can hold. */
  const MAX_INSTANT := 253402300799999

  predicate Blank(s: string) {
    forall c :: c in s ==> c in {' ', '\t', '\n', '\r'}
  }

  /** `_merge_identifier` accepts every column: nothing blank, nothing recorded changes. */
  predicate Mergeable(current: Ids, supplied: Ids) {
    forall f :: f in supplied ==> !Blank(supplied[f]) && (f in current ==> current[f] == supplied[f])
  }

  function NextFilled(filled: real, req: Request): real {
    if req.filled.Some? then req.filled.value else filled
  }

  function FirstFillOf(current: Option<int>, req: Request): Option<int> {
    if current.Some? then current else req.firstFill
  }

  function TimeoutOf(trade: NewTrade, firstFill: Option<int>): Option<int> {
    if firstFill.Some? then Some(firstFill.value + trade.maxHoldingMs) else None
  }

  /** The payload a request would journal on top of what is recorded already. */
  function PayloadOf(filled: real, firstFill: Option<int>, ids: Ids, req: Request): Payload {
    Moved(req.event, NextFilled(filled, req), FirstFillOf(firstFill, req), ids + req.ids)
  }

  /** Every check of `_transition_locked`, in its order. */
  function Refusal(r: Trade, req: Request): Option<Error> {
    var filled := NextFilled(r.filled, req);
    var first := FirstFillOf(r.firstFill, req);
    if req.target !in Allowed(r.state) then Some(InvalidTransition)
    else if !(0.0 <= filled <= r.trade.quantity) then Some(FilledOutside)
    else if filled < r.filled then Some(FilledNotMonotonic)
    else if req.firstFill.Some? && r.firstFill.Some? && req.firstFill != r.firstFill then Some(FirstFillImmutable)
    else if filled > 0.0 && first.None? then Some(FirstFillMissing)
    else if filled == 0.0 && first.Some? then Some(FirstFillWithoutFill)
    else if req.target == Cancelled && filled > 0.0 then Some(PartialCancel)
    else if req.target in EXPOSED && filled <= 0.0 then Some(NeedsFill)
    else if first.Some? && first.value + r.trade.maxHoldingMs > MAX_INSTANT then Some(TimeoutOverflow)
    else if !Mergeable(r.ids, req.ids) then Some(IdentifierRefused)
    else None
  }

  function EntryOf(r: Trade, req: Request): Entry {
    var payload := PayloadOf(r.filled, r.firstFill, r.ids, req);
    Entry(Some(r.state), req.target, req.eventType, payload, Some(r.head),
          EventSha(r.trade.tradeId, Some(r.state), req.target, req.eventType, payload, Some(r.head)))
  }

  /** The row after one journal entry. */
  function Advance(r: Trade, e: Entry): Trade
    requires e.payload.Moved?
  {
    r.(state := e.to, filled := e.payload.filled, firstFill := e.payload.firstFill,
       timeoutAt := TimeoutOf(r.trade, e.payload.firstFill), ids := e.payload.ids,
       version := r.version + 1, head := e.sha)
  }

  function Apply(r: Trade, req: Request): Result<Entry, Error> {
    var no := Refusal(r, req);
    if no.Some? then Err(no.value) else Ok(EntryOf(r, req))
  }

  function CreationEntry(t: NewTrade): Entry {
    Entry(None, Received, CREATED, Created(t), None, EventSha(t.tradeId, None, Received, CREATED, Created(t), None))
  }

  function Opening(t: NewTrade): Trade {
    Trade(t, Received, 0.0, None, None, map[], 0, CreationEntry(t).sha)
  }

  // ---- Journals -------------------------------------------------------------------------

  ghost predicate WellShaped(t: NewTrade, j: seq<Entry>) {
    && |j| > 0 && j[0] == CreationEntry(t)
    && forall i :: 0 < i < |j| ==> j[i].payload.Moved?
  }

  /** The row as of entry `k`: the fold of the journal up to and including it. */
  ghost function StateAt(t: NewTrade, j: seq<Entry>, k: nat): (r: Trade)
    requires WellShaped(t, j) && k < |j|
    ensures r.trade == t && r.version == k
  {
    if k == 0 then Opening(t) else Advance(StateAt(t, j, k - 1), j[k])
  }

  /** The request that asks for exactly what an entry records. */
  function Canonical(e: Entry): Request
    requires e.payload.Moved?
  {
    Request(e.to, e.eventType, e.payload.event, Some(e.payload.filled), e.payload.firstFill, e.payload.ids)
  }

  /** Some request accepted in state `r` writes `e`. */
  ghost predicate Follows(r: Trade, e: Entry) {
    e.payload.Moved? && Apply(r, Canonical(e)) == Ok(e)
  }

  ghost predicate FollowsAt(t: NewTrade, j: seq<Entry>, k: nat)
    requires WellShaped(t, j) && 0 < k < |j|
  {
    Follows(StateAt(t, j, k - 1), j[k])
  }

  /** A journal some sequence of accepted requests could have written. */
  ghost predicate Lawful(t: NewTrade, j: seq<Entry>) {
    && WellShaped(t, j) && t.quantity > 0.0
    && forall k {:trigger FollowsAt(t, j, k)} :: 0 < k < |j| ==> FollowsAt(t, j, k)
  }

  /** What holds of every materialised row. */
  ghost predicate RowOk(r: Trade) {
    && 0.0 <= r.filled <= r.trade.quantity
    && (r.firstFill.Some? <==> r.filled > 0.0)
    && r.timeoutAt == TimeoutOf(r.trade, r.firstFill)
    && (r.timeoutAt.Some? ==> r.timeoutAt.value <= MAX_INSTANT)
    && (r.state == Cancelled ==> r.filled == 0.0)
    && (r.state in EXPOSED ==> r.filled > 0.0)
    && (forall f :: f in r.ids ==> !Blank(r.ids[f]))
  }

  /** An accepted request leads from a sound row to a sound row, and the entry's own canonical
      request would have been accepted with the same result. */
  lemma AcceptedMove(r: Trade, req: Request)
    requires RowOk(r) && Apply(r, req).Ok?
    ensures var e := Apply(r, req).value;
            RowOk(Advance(r, e)) && Follows(r, e)
  {
    var e := Apply(r, req).value;
    assert r.ids + e.payload.ids == e.payload.ids;
  }

  lemma {:induction false} StatesAreOk(t: NewTrade, j: seq<Entry>, k: nat)
    requires Lawful(t, j) && k < |j|
    ensures RowOk(StateAt(t, j, k)) && StateAt(t, j, k).head == j[k].sha && StateAt(t, j, k).state == j[k].to
  {
    if k > 0 {
      StatesAreOk(t, j, k - 1);
      assert FollowsAt(t, j, k);
      AcceptedMove(StateAt(t, j, k - 1), Canonical(j[k]));
    }
  }

  /** One accepted request after another: fills never shrink, the first fill and every recorded
      identifier stay, and the timeout never moves once set. */
  ghost predicate Progress(a: Trade, b: Trade) {
    && a.trade == b.trade && a.filled <= b.filled && a.version <= b.version
    && (a.firstFill.Some? ==> b.firstFill == a.firstFill && b.timeoutAt == a.timeoutAt)
    && (forall f :: f in a.ids ==> f in b.ids && b.ids[f] == a.ids[f])
  }

  lemma MoveProgresses(r: Trade, e: Entry)
    requires RowOk(r) && Follows(r, e)
    ensures Progress(r, Advance(r, e))
  {
  }

  lemma ProgressTrans(a: Trade, b: Trade, c: Trade)
    requires Progress(a, b) && Progress(b, c)
    ensures Progress(a, c)
  {
  }

  lemma {:induction false} HistoryProgresses(t: NewTrade, j: seq<Entry>, i: nat, k: nat)
    requires Lawful(t, j) && i <= k < |j|
    ensures Progress(StateAt(t, j, i), StateAt(t, j, k))
    decreases k - i
  {
    if i < k {
      var b := StateAt(t, j, k - 1);
      HistoryProgresses(t, j, i, k - 1);
      StatesAreOk(t, j, k - 1);
      assert FollowsAt(t, j, k);
      MoveProgresses(b, j[k]);
      ProgressTrans(StateAt(t, j, i), b, Advance(b, j[k]));
    }
  }

  /** The past does not depend on later entries. */
  lemma {:induction false} StateOfPrefix(t: NewTrade, j: seq<Entry>, longer: seq<Entry>, k: nat)
    requires WellShaped(t, j) && WellShaped(t, longer) && j <= longer && k < |j|
    ensures StateAt(t, longer, k) == StateAt(t, j, k)
  {
    if k > 0 {
      StateOfPrefix(t, j, longer, k - 1);
    }
  }

  /** Appending an entry that follows keeps the journal lawful. */
  lemma LawfulAppend(t: NewTrade, j: seq<Entry>, e: Entry)
    requires Lawful(t, j) && Follows(StateAt(t, j, |j| - 1), e)
    ensures Lawful(t, j + [e]) && StateAt(t, j + [e], |j|) == Advance(StateAt(t, j, |j| - 1), e)
  {
    var longer := j + [e];
    assert WellShaped(t, longer);
    forall k | 0 < k < |longer|
      ensures FollowsAt(t, longer, k)
    {
      StateOfPrefix(t, j, longer, k - 1);
      if k < |j| {
        assert FollowsAt(t, j, k);
      }
    }
    StateOfPrefix(t, j, longer, |j| - 1);
  }

  /** Appending what an accepted request yields keeps the journal lawful. */
  lemma LawfulSnoc(t: NewTrade, j: seq<Entry>, req: Request)
    requires Lawful(t, j) && Apply(StateAt(t, j, |j| - 1), req).Ok?
    ensures var r := StateAt(t, j, |j| - 1);
            var e := Apply(r, req).value;
            Lawful(t, j + [e]) && StateAt(t, j + [e], |j|) == Advance(r, e)
  {
    var r := StateAt(t, j, |j| - 1);
    StatesAreOk(t, j, |j| - 1);
    AcceptedMove(r, req);
    LawfulAppend(t, j, Apply(r, req).value);
  }
}
