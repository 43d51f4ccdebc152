/** What recorded tapes keep: they verify, they hold one stream per symbol, and picking the newest
    book by its persisted clock never looks ahead of the tape. */
module TapeIntegrity {
  import opened Common
  import opened TapeState

  // ---- What the verifier accepts --------------------------------------------------------

  ghost predicate BarRowOk(id: string, s: Symbol, rows: seq<BarRow>, i: nat)
    requires i < |rows|
  {
    var row := rows[i];
    && row.payloadSha == BarPayload(row.bar) && row.barSha == BarLeaf(row.bar)
    && row.bar.symbol == row.symbol == s && row.bar.openTime == row.openTime && row.bar.closeTime == row.closeTime
    && (i > 0 ==> row.openTime == rows[i - 1].closeTime + 1)
    && row.previousBarSha == ShaBefore(rows, i).0
    && row.chainSha == BarChain(id, s, ShaBefore(rows, i).1, row.barSha)
  }

  ghost predicate BarsOk(id: string, s: Symbol, rows: seq<BarRow>) {
    forall i :: 0 <= i < |rows| ==> BarRowOk(id, s, rows, i)
  }

  /** The newest of the first `n` frames of a symbol, by its payload. */
  function LastPayload(rows: seq<FrameRow>, n: nat, s: Symbol): Option<Frame>
    requires n <= |rows|
  {
    if n == 0 then None else if rows[n - 1].frame.symbol == s then Some(rows[n - 1].frame) else LastPayload(rows, n - 1, s)
  }

  ghost predicate FrameRowOk(id: string, rows: seq<FrameRow>, i: nat)
    requires i < |rows|
  {
    var row := rows[i];
    && StoredFrame(row)
    && row.frame.sequence == i + 1
    && row.frame.previous == FrameShaBefore(rows, i).0
    && row.chainSha == BookChain(id, FrameShaBefore(rows, i).1, row.frameSha)
    && Continues(LastPayload(rows, i, row.frame.symbol), row.frame).None?
  }

  ghost predicate FramesOk(id: string, rows: seq<FrameRow>) {
    forall i :: 0 <= i < |rows| ==> FrameRowOk(id, rows, i)
  }

  ghost predicate SealOk(t: Tape) {
    && t.seal.Some? && t.tapeSha == Some(SealSha(t.seal.value))
    && t.seal.value.bars == (map s | s in t.bars && t.bars[s] != [] :: HeadOf(t.bars[s]))
    && t.frames != [] && t.seal.value.book == ChainHead(|t.frames|, t.frames[|t.frames| - 1].chainSha)
  }

  /** `verify_tape` accepts exactly this (the method `VerifyTape` is proved against it). */
  ghost predicate Verifies(t: Tape, id: string) {
    && (forall s :: s in t.bars ==> BarsOk(id, s, t.bars[s]))
    && FramesOk(id, t.frames)
    && t.bookCount == |t.frames| && t.bookHead == FrameShaBefore(t.frames, |t.frames|).1
    && (t.mode == Sealed ==> SealOk(t))
  }

  // ---- What the writers keep ------------------------------------------------------------

  ghost predicate Contiguous(rows: seq<BarRow>) {
    && rows != []
    && (forall i :: 0 <= i < |rows| ==> rows[i].openTime <= rows[i].closeTime)
    && (forall i, j :: 0 <= i < j < |rows| ==> rows[i].closeTime < rows[j].openTime)
  }

  ghost predicate FrameColumns(id: string, rows: seq<FrameRow>) {
    forall i :: 0 <= i < |rows| ==> rows[i].columns == rows[i].frame && rows[i].frame.tape == id
  }

  /** A barrier can only be the newest frame, and it blocks the tape. */
  ghost predicate BarrierOk(t: Tape) {
    && (forall i :: 0 <= i < |t.frames| - 1 ==> t.frames[i].frame.continuity == Admitted)
    && (t.mode == Blocked <==> t.frames != [] && t.frames[|t.frames| - 1].frame.continuity != Admitted)
  }

  ghost predicate Good(t: Tape, id: string) {
    && Verifies(t, id)
    && (forall s :: s in t.bars ==> s in UNIVERSE && Contiguous(t.bars[s]))
    && FrameColumns(id, t.frames)
    && BarrierOk(t)
    && (t.mode == Sealed ==> Complete(t) && t.seal.Some? && t.seal.value == SealFor(t, id, t.seal.value.source, t.seal.value.sealedAt))
  }

  lemma {:induction false} FindBarIff(rows: seq<BarRow>, openTime: int)
    ensures FindBar(rows, openTime).None? <==> forall i :: 0 <= i < |rows| ==> rows[i].openTime != openTime
    decreases |rows|
  {
    if rows != [] {
      FindBarIff(rows[..|rows| - 1], openTime);
    }
  }

  lemma {:induction false} ColumnsAreTheTape(id: string, rows: seq<FrameRow>, n: nat, s: Symbol)
    requires FrameColumns(id, rows) && n <= |rows|
    ensures LastOf(rows, n, s) == LastPayload(rows, n, s)
    decreases n
  {
    if n > 0 {
      ColumnsAreTheTape(id, rows, n - 1, s);
    }
  }

  lemma {:induction false} LastOfPrefix(rows: seq<FrameRow>, longer: seq<FrameRow>, n: nat, s: Symbol)
    requires n <= |rows| && rows <= longer
    ensures LastPayload(rows, n, s) == LastPayload(longer, n, s)
    decreases n
  {
    if n > 0 {
      LastOfPrefix(rows, longer, n - 1, s);
    }
  }

  lemma BarsSnoc(id: string, rows: seq<BarRow>, bar: Bar)
    requires BarsOk(id, bar.symbol, rows) && (rows != [] ==> bar.openTime == rows[|rows| - 1].closeTime + 1)
    ensures BarsOk(id, bar.symbol, rows + [BarRowFor(id, rows, bar)])
  {
    var longer := rows + [BarRowFor(id, rows, bar)];
    forall i | 0 <= i < |longer|
      ensures BarRowOk(id, bar.symbol, longer, i)
    {
      assert ShaBefore(longer, i) == ShaBefore(rows, i);
      assert i < |rows| ==> BarRowOk(id, bar.symbol, rows, i);
    }
  }

  lemma ContiguousSnoc(rows: seq<BarRow>, row: BarRow)
    requires row.openTime <= row.closeTime
    requires rows != [] ==> Contiguous(rows) && row.openTime == rows[|rows| - 1].closeTime + 1
    ensures Contiguous(rows + [row])
  {
    assert rows != [] ==> forall i :: 0 <= i < |rows| ==> rows[i].closeTime <= rows[|rows| - 1].closeTime;
  }

  lemma AddBarKeepsGood(t: Tape, id: string, bar: Bar, m: Sha)
    requires Good(t, id) && bar.openTime <= bar.closeTime && AddBar(t, id, bar, m).Ok?
    ensures Good(AddBar(t, id, bar, m).value.tape, id)
  {
    var rows := BarsOf(t, bar.symbol);
    if AddBar(t, id, bar, m).value.created {
      BarsSnoc(id, rows, bar);
      ContiguousSnoc(rows, BarRowFor(id, rows, bar));
    }
  }

  lemma OldFrameRow(id: string, rows: seq<FrameRow>, longer: seq<FrameRow>, i: nat)
    requires i < |rows| && rows <= longer && FrameRowOk(id, rows, i)
    ensures FrameRowOk(id, longer, i)
  {
    assert longer[i] == rows[i] && FrameShaBefore(longer, i) == FrameShaBefore(rows, i);
    LastOfPrefix(rows, longer, i, rows[i].frame.symbol);
  }

  lemma NewFrameRow(id: string, rows: seq<FrameRow>, frame: Frame)
    requires FrameColumns(id, rows) && frame.tape == id && (rows != [] ==> FrameRowOk(id, rows, |rows| - 1))
    requires Extends(rows, frame).None? && Continues(LastOf(rows, |rows|, frame.symbol), frame).None?
    ensures FrameRowOk(id, rows + [FrameRowFor(rows, frame)], |rows|)
  {
    var longer := rows + [FrameRowFor(rows, frame)];
    assert FrameShaBefore(longer, |rows|) == FrameShaBefore(rows, |rows|);
    ColumnsAreTheTape(id, rows, |rows|, frame.symbol);
    LastOfPrefix(rows, longer, |rows|, frame.symbol);
  }

  lemma OneMoreFrameRow(id: string, rows: seq<FrameRow>, row: FrameRow)
    requires FramesOk(id, rows) && FrameRowOk(id, rows + [row], |rows|)
    ensures FramesOk(id, rows + [row])
  {
    var longer := rows + [row];
    forall i | 0 <= i < |longer|
      ensures FrameRowOk(id, longer, i)
    {
      if i < |rows| {
        OldFrameRow(id, rows, longer, i);
      }
    }
  }

  lemma FramesSnoc(id: string, rows: seq<FrameRow>, frame: Frame)
    requires FramesOk(id, rows) && FrameColumns(id, rows) && frame.tape == id
    requires Extends(rows, frame).None? && Continues(LastOf(rows, |rows|, frame.symbol), frame).None?
    ensures FramesOk(id, rows + [FrameRowFor(rows, frame)])
  {
    NewFrameRow(id, rows, frame);
    OneMoreFrameRow(id, rows, FrameRowFor(rows, frame));
  }

  lemma AddFrameKeepsGood(t: Tape, id: string, frame: Frame, m: Sha)
    requires Good(t, id) && frame.tape == id && AddFrame(t, frame, m).Ok?
    ensures Good(AddFrame(t, frame, m).value.tape, id)
  {
    if AddFrame(t, frame, m).value.created {
      FramesSnoc(id, t.frames, frame);
    }
  }

  lemma SealKeepsGood(t: Tape, id: string, source: string, at: int)
    requires Good(t, id) && SealTape(t, id, source, at).Ok?
    ensures Good(SealTape(t, id, source, at).value, id)
  {
    if t.mode == Open {
      var u := SealTape(t, id, source, at).value;
      SealHeads(t, id, u.seal.value.source, u.seal.value.sealedAt);
      SealHeads(u, id, u.seal.value.source, u.seal.value.sealedAt);
    }
  }

  /** The manifest lists the head of every bar chain. */
  lemma SealHeads(t: Tape, id: string, source: string, at: int)
    requires Complete(t)
    ensures SealFor(t, id, source, at).bars == (map s | s in t.bars && t.bars[s] != [] :: HeadOf(t.bars[s]))
  {
  }

  /** The contracts' promise about a bar's two instants. */
  ghost predicate Sane(ops: seq<Op>) {
    forall i :: 0 <= i < |ops| && ops[i].RecordBar? ==> ops[i].bar.openTime <= ops[i].bar.closeTime
  }

  lemma ApplyKeepsGood(t: Tape, id: string, op: Op)
    requires Good(t, id) && (op.RecordBar? ==> op.bar.openTime <= op.bar.closeTime)
    ensures Good(Apply(t, id, op), id)
  {
    match op
    case RecordBar(bar, m) => if AddBar(t, id, bar, m).Ok? { AddBarKeepsGood(t, id, bar, m); }
    case RecordFrame(frame, m) => if frame.tape == id && AddFrame(t, frame, m).Ok? { AddFrameKeepsGood(t, id, frame, m); }
    case DoSeal(source, at) => if SealTape(t, id, source, at).Ok? { SealKeepsGood(t, id, source, at); }
  }

  /** Whatever is recorded, replayed, refused or sealed, the stored tape verifies at every point. */
  lemma {:induction false} WritersTapesVerify(t: Tape, id: string, ops: seq<Op>)
    requires Good(t, id) && Sane(ops)
    ensures Good(ApplyAll(t, id, ops), id) && Verifies(ApplyAll(t, id, ops), id)
    decreases |ops|
  {
    if ops != [] {
      ApplyKeepsGood(t, id, ops[0]);
      WritersTapesVerify(Apply(t, id, ops[0]), id, ops[1..]);
    }
  }

  lemma NewTapeIsGood(id: string)
    ensures Good(NEW_TAPE, id)
  {
  }

  /** A blocked or sealed tape never changes again, and a sealed one is all there was. */
  lemma {:induction false} FinishedTapesAreFrozen(t: Tape, id: string, ops: seq<Op>)
    requires t.mode != Open
    ensures ApplyAll(t, id, ops) == t
    decreases |ops|
  {
    if ops != [] {
      FinishedTapesAreFrozen(t, id, ops[1..]);
    }
  }

  // ---- Replays --------------------------------------------------------------------------

  lemma {:induction false} FindSequenceAt(id: string, rows: seq<FrameRow>, i: nat)
    requires FramesOk(id, rows) && FrameColumns(id, rows) && i < |rows|
    ensures FindSequence(rows, i + 1) == Some(rows[i])
    decreases |rows|
  {
    assert FrameRowOk(id, rows, |rows| - 1);
    if i < |rows| - 1 {
      var shorter := rows[..|rows| - 1];
      forall k | 0 <= k < |shorter|
        ensures FrameRowOk(id, shorter, k)
      {
        assert FrameRowOk(id, rows, k);
        LastOfPrefix(shorter, rows, k, rows[k].frame.symbol);
      }
      FindSequenceAt(id, shorter, i);
    }
  }

  /** On an open tape a recorded frame can be delivered again for ever, at no effect. */
  lemma FrameReplayIsNoop(t: Tape, id: string, i: nat)
    requires Good(t, id) && t.mode == Open && i < |t.frames|
    ensures AddFrame(t, t.frames[i].frame, FrameLeaf(t.frames[i].frame)) == Ok(Appended(t, false))
  {
    assert FrameRowOk(id, t.frames, i);
    FindSequenceAt(id, t.frames, i);
  }

  /** The frame's hash covers its sequence, so it never turns up at another place. */
  lemma FramesNeverRelocate(t: Tape, id: string, frame: Frame, m: Sha)
    requires Good(t, id)
    ensures AddFrame(t, frame, m) != Err(Relocated)
  {
    if FindSha(t.frames, FrameLeaf(frame)).Some? {
      var twin := FindSha(t.frames, FrameLeaf(frame)).value;
      var i :| 0 <= i < |t.frames| && t.frames[i] == twin;
      assert FrameRowOk(id, t.frames, i);
      assert twin.frame == frame && twin.columns == frame;
    }
  }

  // ---- One stream per symbol ------------------------------------------------------------

  lemma {:induction false} LastPayloadIsLast(rows: seq<FrameRow>, n: nat, s: Symbol, i: nat) returns (k: nat)
    requires i < n <= |rows| && rows[i].frame.symbol == s
    ensures i <= k < n && rows[k].frame.symbol == s && LastPayload(rows, n, s) == Some(rows[k].frame)
    decreases n
  {
    if rows[n - 1].frame.symbol == s {
      k := n - 1;
    } else {
      k := LastPayloadIsLast(rows, n - 1, s, i);
    }
  }

  /** Two frames of one symbol with no barrier from the first on belong to one stream epoch, with
      rising update ids and clocks that never run backwards. */
  lemma {:induction false} StreamRises(id: string, rows: seq<FrameRow>, i: nat, j: nat)
    requires FramesOk(id, rows) && i < j < |rows| && rows[i].frame.symbol == rows[j].frame.symbol
    requires forall k :: i < k <= j ==> rows[k].frame.continuity == Admitted
    ensures rows[i].frame.epoch == rows[j].frame.epoch && rows[i].frame.updateId < rows[j].frame.updateId
    ensures rows[i].frame.exchangeAt <= rows[j].frame.exchangeAt && rows[i].frame.receivedAt <= rows[j].frame.receivedAt
    ensures rows[i].frame.persistedAt <= rows[j].frame.persistedAt
    decreases j
  {
    var k := LastPayloadIsLast(rows, j, rows[j].frame.symbol, i);
    assert FrameRowOk(id, rows, j);
    if i < k {
      StreamRises(id, rows, i, k);
    }
  }

  /** `b` comes later in the stream of `a`. */
  predicate StreamsOn(a: Frame, b: Frame) {
    a.epoch == b.epoch && a.updateId < b.updateId && a.sequence < b.sequence && a.persistedAt <= b.persistedAt
  }

  lemma GoodTapesStream(t: Tape, id: string, i: nat, j: nat)
    requires Good(t, id) && t.mode != Blocked && i < j < |t.frames| && t.frames[i].columns.symbol == t.frames[j].columns.symbol
    ensures StreamsOn(t.frames[i].columns, t.frames[j].columns)
  {
    StreamRises(id, t.frames, i, j);
    assert FrameRowOk(id, t.frames, i) && FrameRowOk(id, t.frames, j);
  }

  /** Every tape the writers leave open or sealed holds one uninterrupted stream per symbol. */
  lemma UsableTapesHaveOneStream(id: string, ops: seq<Op>, t: Tape, i: nat, j: nat)
    requires Sane(ops) && t == ApplyAll(NEW_TAPE, id, ops) && t.mode != Blocked
    requires i < j < |t.frames| && t.frames[i].columns.symbol == t.frames[j].columns.symbol
    ensures StreamsOn(t.frames[i].columns, t.frames[j].columns)
  {
    NewTapeIsGood(id);
    WritersTapesVerify(NEW_TAPE, id, ops);
    GoodTapesStream(t, id, i, j);
  }

  // ---- Selection without looking ahead --------------------------------------------------

  predicate Eligible(row: FrameRow, s: Symbol, asOf: int) {
    row.columns.symbol == s && row.columns.continuity == Admitted && row.columns.persistedAt <= asOf
  }

  /** ORDER BY persisted_at_ms DESC, tape_sequence DESC puts `b` before `a`. */
  predicate OlderThan(a: Frame, b: Frame) {
    a.persistedAt < b.persistedAt || (a.persistedAt == b.persistedAt && a.sequence < b.sequence)
  }

  ghost predicate Selected(rows: seq<FrameRow>, s: Symbol, asOf: int, i: nat) {
    && i < |rows| && Eligible(rows[i], s, asOf)
    && forall j :: 0 <= j < |rows| && j != i && Eligible(rows[j], s, asOf) ==> OlderThan(rows[j].columns, rows[i].columns)
  }

  /** Frame `i` is the symbol's last one in tape order that had been persisted by `asOf`, and
      everything of the symbol before it had been persisted too. */
  ghost predicate EndsVisiblePrefix(rows: seq<FrameRow>, s: Symbol, asOf: int, i: nat) {
    && i < |rows| && rows[i].columns.symbol == s
    && (forall j :: 0 <= j <= i && rows[j].columns.symbol == s ==> rows[j].columns.persistedAt <= asOf)
    && (forall j :: i < j < |rows| && rows[j].columns.symbol == s ==> asOf < rows[j].columns.persistedAt)
  }

  ghost predicate Ordered(rows: seq<FrameRow>, s: Symbol) {
    forall i, j :: 0 <= i < j < |rows| && rows[i].columns.symbol == s && rows[j].columns.symbol == s ==>
                     OlderThan(rows[i].columns, rows[j].columns)
  }

  lemma StreamsAreOrdered(t: Tape, id: string, s: Symbol)
    requires Good(t, id) && t.mode != Blocked
    ensures Ordered(t.frames, s)
  {
    forall i, j | 0 <= i < j < |t.frames| && t.frames[i].columns.symbol == s && t.frames[j].columns.symbol == s
      ensures OlderThan(t.frames[i].columns, t.frames[j].columns)
    {
      GoodTapesStream(t, id, i, j);
    }
  }

  lemma OrderedSelection(rows: seq<FrameRow>, s: Symbol, asOf: int, i: nat)
    requires Ordered(rows, s) && forall k :: 0 <= k < |rows| ==> rows[k].columns.continuity == Admitted
    ensures Selected(rows, s, asOf, i) <==> EndsVisiblePrefix(rows, s, asOf, i)
  {
  }

  /** Sorting by the persisted clock selects exactly the end of the visible prefix of the tape. */
  lemma SelectionIsTapeOrder(t: Tape, id: string, s: Symbol, asOf: int, i: nat)
    requires Good(t, id) && t.mode != Blocked
    ensures Selected(t.frames, s, asOf, i) <==> EndsVisiblePrefix(t.frames, s, asOf, i)
  {
    StreamsAreOrdered(t, id, s);
    OrderedSelection(t.frames, s, asOf, i);
  }

  /** Every frame of the symbol from place `n` on was persisted after `asOf`. */
  ghost predicate FutureFrom(rows: seq<FrameRow>, s: Symbol, asOf: int, n: nat) {
    forall j :: n <= j < |rows| && rows[j].columns.symbol == s ==> asOf < rows[j].columns.persistedAt
  }

  /** What is recorded after `asOf` cannot change the answer: dropping it leaves the selection. */
  lemma SelectionIgnoresTheFuture(rows: seq<FrameRow>, s: Symbol, asOf: int, n: nat, i: nat)
    requires n <= |rows| && FutureFrom(rows, s, asOf, n)
    ensures Selected(rows, s, asOf, i) <==> Selected(rows[..n], s, asOf, i)
  {
    if Selected(rows[..n], s, asOf, i) {
      forall j | 0 <= j < |rows| && j != i && Eligible(rows[j], s, asOf)
        ensures OlderThan(rows[j].columns, rows[i].columns)
      {
        assert j < n && rows[..n][j] == rows[j];
      }
    }
    if Selected(rows, s, asOf, i) {
      assert i < n && rows[..n][i] == rows[i];
      forall j | 0 <= j < n && j != i && Eligible(rows[..n][j], s, asOf)
        ensures OlderThan(rows[..n][j].columns, rows[..n][i].columns)
      {
        assert rows[..n][j] == rows[j];
      }
    }
  }

  // ---- What the hashes commit to --------------------------------------------------------

  lemma {:induction false} BarHeadCommits(id: string, s: Symbol, a: seq<BarRow>, b: seq<BarRow>)
    requires BarsOk(id, s, a) && BarsOk(id, s, b) && |a| == |b|
    requires ShaBefore(a, |a|).1 == ShaBefore(b, |b|).1
    ensures a == b
    decreases |a|
  {
    if a != [] {
      var n := |a| - 1;
      assert BarRowOk(id, s, a, n) && BarRowOk(id, s, b, n);
      assert ShaBefore(a[..n], n) == ShaBefore(a, n) && ShaBefore(b[..n], n) == ShaBefore(b, n);
      BarsPrefix(id, s, a, n);
      BarsPrefix(id, s, b, n);
      BarHeadCommits(id, s, a[..n], b[..n]);
      assert a == a[..n] + [a[n]] && b == b[..n] + [b[n]];
    }
  }

  lemma BarsPrefix(id: string, s: Symbol, rows: seq<BarRow>, n: nat)
    requires BarsOk(id, s, rows) && n <= |rows|
    ensures BarsOk(id, s, rows[..n])
  {
    forall i | 0 <= i < n
      ensures BarRowOk(id, s, rows[..n], i)
    {
      assert BarRowOk(id, s, rows, i) && ShaBefore(rows[..n], i) == ShaBefore(rows, i);
    }
  }

  /** Rows with equal payloads and hashes; only the sort columns may differ. */
  ghost predicate SamePayload(a: FrameRow, b: FrameRow) {
    a.frame == b.frame && a.frameSha == b.frameSha && a.chainSha == b.chainSha && a.payloadSha == b.payloadSha
  }

  lemma {:induction false} BookHeadCommits(id: string, a: seq<FrameRow>, b: seq<FrameRow>, n: nat)
    requires FramesOk(id, a) && FramesOk(id, b) && n <= |a| && n <= |b|
    requires FrameShaBefore(a, n).1 == FrameShaBefore(b, n).1
    ensures forall i :: 0 <= i < n ==> SamePayload(a[i], b[i])
    decreases n
  {
    if n > 0 {
      assert FrameRowOk(id, a, n - 1) && FrameRowOk(id, b, n - 1);
      BookHeadCommits(id, a, b, n - 1);
    }
  }

  /** Two verified sealed tapes with one seal hash hold the same bars and the same frames. */
  lemma SealCommitsToContents(id: string, t: Tape, u: Tape)
    requires Verifies(t, id) && Verifies(u, id) && t.mode == Sealed && u.mode == Sealed && t.tapeSha == u.tapeSha
    requires (forall s :: s in t.bars ==> t.bars[s] != []) && (forall s :: s in u.bars ==> u.bars[s] != [])
    ensures t.bars == u.bars
    ensures |t.frames| == |u.frames| && forall i :: 0 <= i < |t.frames| ==> SamePayload(t.frames[i], u.frames[i])
  {
    var heads := t.seal.value.bars;
    assert heads.Keys == t.bars.Keys && heads.Keys == u.bars.Keys;
    forall s | s in t.bars
      ensures s in u.bars && t.bars[s] == u.bars[s]
    {
      assert heads[s] == HeadOf(t.bars[s]) && heads[s] == HeadOf(u.bars[s]);
      BarHeadCommits(id, s, t.bars[s], u.bars[s]);
    }
    BookHeadCommits(id, t.frames, u.frames, |t.frames|);
  }

  // ---- What verification does not see ---------------------------------------------------

  /** Rows with equal payloads, hashes, evidence and places in the tape; the other columns the book
      query filters and sorts by may differ. */
  ghost predicate SortColumnsOnly(a: seq<FrameRow>, b: seq<FrameRow>) {
    |a| == |b|
    && forall k :: 0 <= k < |a| ==>
         && SamePayload(a[k], b[k]) && a[k].columns.body == b[k].columns.body
         && a[k].columns.tape == b[k].columns.tape && a[k].columns.sequence == b[k].columns.sequence
  }

  /** The verifier reads payloads, so it cannot see any change of the columns that selection filters
      and sorts by. */
  lemma VerificationIgnoresSortColumns(t: Tape, id: string, rows: seq<FrameRow>)
    requires SortColumnsOnly(t.frames, rows)
    ensures Verifies(t.(frames := rows), id) <==> Verifies(t, id)
  {
    var altered := t.(frames := rows);
    forall k | 0 <= k < |rows|
      ensures FrameRowOk(id, rows, k) <==> FrameRowOk(id, t.frames, k)
    {
      SamePayloadsSameLast(t.frames, rows, k, rows[k].frame.symbol);
    }
    assert FrameShaBefore(rows, |rows|) == FrameShaBefore(t.frames, |rows|);
  }

  lemma {:induction false} SamePayloadsSameLast(a: seq<FrameRow>, b: seq<FrameRow>, n: nat, s: Symbol)
    requires |a| == |b| && n <= |a| && forall k :: 0 <= k < |a| ==> a[k].frame == b[k].frame
    ensures LastPayload(a, n, s) == LastPayload(b, n, s)
    decreases n
  {
    if n > 0 {
      SamePayloadsSameLast(a, b, n - 1, s);
    }
  }

  /** In particular the persisted clock of one frame. */
  lemma VerificationIgnoresTheClockColumn(t: Tape, id: string, i: nat, clock: int)
    requires i < |t.frames|
    ensures var row := t.frames[i];
            var altered := t.(frames := t.frames[i := row.(columns := row.columns.(persistedAt := clock))]);
            Verifies(altered, id) <==> Verifies(t, id)
  {
    var row := t.frames[i];
    VerificationIgnoresSortColumns(t, id, t.frames[i := row.(columns := row.columns.(persistedAt := clock))]);
  }
}
