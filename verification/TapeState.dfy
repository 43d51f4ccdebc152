/** The market tape of simulation_repository.py as values: what one recording transaction and one
    sealing transaction do to it.

    A tape holds one chain of closed bars per symbol and one global chain of book frames.  Every
    stored frame has its columns (which the queries filter and sort by) beside its payload.
    SHA-256 is a free constructor over what it covers. */
module TapeState {
  import opened Common

  /** The contracts admit five symbols; `Other` is anything else. */
  datatype Symbol = Bnb | Btc | Eth | Sol | Xrp | Other(name: string)

  const UNIVERSE: set<Symbol> := {Bnb, Btc, Eth, Sol, Xrp}

  datatype Sha =
    | BarLeaf(bar: Bar)
    | FrameLeaf(frame: Frame)
    | BarChain(tape: string, symbol: Symbol, previous: Option<Sha>, leaf: Sha)
    | BookChain(tape: string, previous: Option<Sha>, leaf: Sha)
    | BarPayload(bar: Bar)
    | FramePayload(frame: Frame)
    | SealSha(seal: Seal)

  datatype Bar = Bar(symbol: Symbol, venue: string, openTime: int, closeTime: int, body: string)

  datatype Continuity = Admitted | Reconnect | Gap

  /** `body` is the contract version, raw evidence and book levels. */
  datatype Frame = Frame(
    tape: string, sequence: int, symbol: Symbol, epoch: string, updateId: int,
    exchangeAt: int, receivedAt: int, persistedAt: int, continuity: Continuity,
    previous: Option<Sha>, body: string)

  datatype BarRow = BarRow(
    symbol: Symbol, openTime: int, closeTime: int, barSha: Sha, previousBarSha: Option<Sha>, chainSha: Sha,
    payloadSha: Sha, bar: Bar)

  datatype FrameRow = FrameRow(columns: Frame, frameSha: Sha, chainSha: Sha, payloadSha: Sha, frame: Frame)

  datatype ChainHead = ChainHead(count: nat, head: Sha)

  datatype Seal = Seal(tape: string, source: string, sealedAt: int, bars: map<Symbol, ChainHead>, book: ChainHead)

  datatype TapeMode = Open | Blocked | Sealed

  datatype Tape = Tape(
    mode: TapeMode, bars: map<Symbol, seq<BarRow>>, frames: seq<FrameRow>,
    bookCount: nat, bookHead: Option<Sha>, tapeSha: Option<Sha>, seal: Option<Seal>)

  datatype Error =
    | BadInput | NotOpen | Conflict | Relocated | NotContiguous | BadPredecessor | Regressed | EpochChanged
    | UnknownTape | HasBarrier | Incomplete | NotSealed | BadCursor

  /** A tape after a transaction, and whether the transaction appended. */
  datatype Appended = Appended(tape: Tape, created: bool)

  const NEW_TAPE := Tape(Open, map[], [], 0, None, None, None)

  function BarsOf(t: Tape, s: Symbol): seq<BarRow> {
    if s in t.bars then t.bars[s] else []
  }

  function ShaBefore(rows: seq<BarRow>, i: nat): (Option<Sha>, Option<Sha>)
    requires i <= |rows|
  {
    if i == 0 then (None, None) else (Some(rows[i - 1].barSha), Some(rows[i - 1].chainSha))
  }

  function FindBar(rows: seq<BarRow>, openTime: int): (row: Option<BarRow>)
    ensures row.Some? ==> row.value in rows && row.value.openTime == openTime
  {
    if rows == [] then None
    else if rows[|rows| - 1].openTime == openTime then Some(rows[|rows| - 1])
    else FindBar(rows[..|rows| - 1], openTime)
  }

  /** `_assert_payload_identity` for a bar. */
  predicate SameBar(row: BarRow, bar: Bar) {
    row.payloadSha == BarPayload(row.bar) && row.payloadSha == BarPayload(bar) && row.barSha == BarLeaf(bar)
  }

  function BarRowFor(id: string, rows: seq<BarRow>, bar: Bar): BarRow {
    var (previousBar, previousChain) := ShaBefore(rows, |rows|);
    BarRow(bar.symbol, bar.openTime, bar.closeTime, BarLeaf(bar), previousBar,
           BarChain(id, bar.symbol, previousChain, BarLeaf(bar)), BarPayload(bar), bar)
  }

  /** `record_closed_bar` on a tape. */
  function AddBar(t: Tape, id: string, bar: Bar, messageId: Sha): Result<Appended, Error> {
    var rows := BarsOf(t, bar.symbol);
    if bar.symbol !in UNIVERSE || bar.venue != "BINANCE_UM" || messageId != BarLeaf(bar) then Err(BadInput)
    else if t.mode != Open then Err(NotOpen)
    else
      var seen := FindBar(rows, bar.openTime);
      if seen.Some? then (if SameBar(seen.value, bar) then Ok(Appended(t, false)) else Err(Conflict))
      else if rows != [] && bar.openTime != rows[|rows| - 1].closeTime + 1 then Err(NotContiguous)
      else Ok(Appended(t.(bars := t.bars[bar.symbol := rows + [BarRowFor(id, rows, bar)]]), true))
  }

  function FindSequence(rows: seq<FrameRow>, sequence: int): (row: Option<FrameRow>)
    ensures row.Some? ==> row.value in rows && row.value.columns.sequence == sequence
    ensures row.None? ==> forall r :: r in rows ==> r.columns.sequence != sequence
  {
    if rows == [] then None
    else if rows[|rows| - 1].columns.sequence == sequence then Some(rows[|rows| - 1])
    else FindSequence(rows[..|rows| - 1], sequence)
  }

  function FindSha(rows: seq<FrameRow>, sha: Sha): (row: Option<FrameRow>)
    ensures row.Some? ==> row.value in rows && row.value.frameSha == sha
  {
    if rows == [] then None
    else if rows[|rows| - 1].frameSha == sha then Some(rows[|rows| - 1])
    else FindSha(rows[..|rows| - 1], sha)
  }

  /** The newest of the first `n` frames of a symbol, by its columns. */
  function LastOf(rows: seq<FrameRow>, n: nat, s: Symbol): (last: Option<Frame>)
    requires n <= |rows|
  {
    if n == 0 then None else if rows[n - 1].columns.symbol == s then Some(rows[n - 1].columns) else LastOf(rows, n - 1, s)
  }

  /** `_stored_book_frame`: the payload is intact and the duplicated evidence columns match. */
  predicate StoredFrame(row: FrameRow) {
    row.payloadSha == FramePayload(row.frame) && row.frameSha == FrameLeaf(row.frame) && row.columns.body == row.frame.body
  }

  predicate SameFrame(row: FrameRow, frame: Frame) {
    row.payloadSha == FramePayload(row.frame) && StoredFrame(row) && row.frame == frame
  }

  /** What a symbol's next frame owes to its previous one. */
  function Continues(before: Option<Frame>, next: Frame): Option<Error> {
    if before.None? then None
    else
      var b := before.value;
      if next.epoch == b.epoch then
        if next.updateId <= b.updateId || next.exchangeAt < b.exchangeAt || next.receivedAt < b.receivedAt
           || next.persistedAt < b.persistedAt then Some(Regressed) else None
      else if next.continuity != Reconnect then Some(EpochChanged) else None
  }

  function FrameShaBefore(rows: seq<FrameRow>, i: nat): (Option<Sha>, Option<Sha>)
    requires i <= |rows|
  {
    if i == 0 then (None, None) else (Some(rows[i - 1].frameSha), Some(rows[i - 1].chainSha))
  }

  function FrameRowFor(rows: seq<FrameRow>, frame: Frame): FrameRow {
    FrameRow(frame, FrameLeaf(frame), BookChain(frame.tape, FrameShaBefore(rows, |rows|).1, FrameLeaf(frame)), FramePayload(frame), frame)
  }

  /** Does the frame extend the global tape? */
  function Extends(rows: seq<FrameRow>, frame: Frame): Option<Error> {
    if rows == [] then if frame.sequence != 1 || frame.previous.Some? then Some(NotContiguous) else None
    else if frame.sequence != rows[|rows| - 1].columns.sequence + 1 then Some(NotContiguous)
    else if frame.previous != Some(rows[|rows| - 1].frameSha) then Some(BadPredecessor)
    else None
  }

  function PutFrame(t: Tape, frame: Frame): Tape {
    var row := FrameRowFor(t.frames, frame);
    t.(frames := t.frames + [row], bookCount := t.bookCount + 1, bookHead := Some(row.chainSha),
       mode := if frame.continuity == Admitted then t.mode else Blocked)
  }

  /** `record_book_frame` on a tape. */
  function AddFrame(t: Tape, frame: Frame, messageId: Sha): Result<Appended, Error> {
    if messageId != FrameLeaf(frame) then Err(BadInput)
    else if t.mode != Open then Err(NotOpen)
    else
      var seen := FindSequence(t.frames, frame.sequence);
      var twin := FindSha(t.frames, FrameLeaf(frame));
      if seen.Some? then (if SameFrame(seen.value, frame) then Ok(Appended(t, false)) else Err(Conflict))
      else if twin.Some? then Err(if SameFrame(twin.value, frame) then Relocated else Conflict)
      else if Extends(t.frames, frame).Some? then Err(Extends(t.frames, frame).value)
      else
        var wrong := Continues(LastOf(t.frames, |t.frames|, frame.symbol), frame);
        if wrong.Some? then Err(wrong.value) else Ok(Appended(PutFrame(t, frame), true))
  }

  function HeadOf(rows: seq<BarRow>): ChainHead
    requires rows != []
  {
    ChainHead(|rows|, rows[|rows| - 1].chainSha)
  }

  predicate HasAdmitted(rows: seq<FrameRow>, s: Symbol) {
    exists i :: 0 <= i < |rows| && rows[i].columns.symbol == s && rows[i].columns.continuity == Admitted
  }

  predicate Complete(t: Tape) {
    && t.bars.Keys == UNIVERSE && (forall s :: s in UNIVERSE ==> HasAdmitted(t.frames, s))
    && (forall s :: s in t.bars ==> t.bars[s] != []) && t.frames != []
  }

  function SealFor(t: Tape, id: string, source: string, sealedAt: int): Seal
    requires Complete(t)
  {
    Seal(id, source, sealedAt, map s | s in t.bars :: HeadOf(t.bars[s]),
         ChainHead(|t.frames|, t.frames[|t.frames| - 1].chainSha))
  }

  /** `seal_tape`: the sealed tape and the manifest it returns. */
  function SealTape(t: Tape, id: string, source: string, sealedAt: int): Result<Tape, Error> {
    if t.mode == Blocked then Err(HasBarrier)
    else if t.mode == Sealed then Ok(t)
    else if !Complete(t) then Err(Incomplete)
    else
      var seal := SealFor(t, id, source, sealedAt);
      Ok(t.(mode := Sealed, tapeSha := Some(SealSha(seal)), seal := Some(seal)))
  }

  // ---- Whole recordings -----------------------------------------------------------------

  datatype Op =
    | RecordBar(bar: Bar, barMessage: Sha)
    | RecordFrame(frame: Frame, frameMessage: Sha)
    | DoSeal(source: string, sealedAt: int)

  /** One call on tape `id`; a refused call changes nothing. */
  function Apply(t: Tape, id: string, op: Op): Tape {
    match op
    case RecordBar(bar, m) => var r := AddBar(t, id, bar, m); if r.Ok? then r.value.tape else t
    case RecordFrame(frame, m) =>
      if frame.tape != id then t else var r := AddFrame(t, frame, m); if r.Ok? then r.value.tape else t
    case DoSeal(source, at) => var r := SealTape(t, id, source, at); if r.Ok? then r.value else t
  }

  function ApplyAll(t: Tape, id: string, ops: seq<Op>): Tape
    decreases |ops|
  {
    if ops == [] then t else ApplyAll(Apply(t, id, ops[0]), id, ops[1..])
  }
}
