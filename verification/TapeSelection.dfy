/** When the book query returns the right book, and how a verified tape can get it wrong.

    The query filters and sorts by columns and returns a payload.  What is right is a matter of
    payloads alone: they are what the hashes cover and what a reader gets. */
module TapeSelection {
  import opened Common
  import opened TapeState
  import opened TapeIntegrity

  // ---- The right answer -----------------------------------------------------------------

  /** The payload is an admitted book of the symbol. */
  predicate IsBookOf(row: FrameRow, s: Symbol) {
    row.frame.symbol == s && row.frame.continuity == Admitted
  }

  /** Frame `i` is the symbol's last book on the tape that had been persisted by `asOf`: every later one
      was persisted after. */
  ghost predicate TrueEnd(rows: seq<FrameRow>, s: Symbol, asOf: int, i: nat) {
    && i < |rows| && IsBookOf(rows[i], s) && rows[i].frame.persistedAt <= asOf
    && forall j :: i < j < |rows| && IsBookOf(rows[j], s) ==> asOf < rows[j].frame.persistedAt
  }

  /** The query's answer is the right one, for every instant. */
  ghost predicate SelectsRightly(rows: seq<FrameRow>, s: Symbol) {
    forall asOf: int, i: nat :: Selected(rows, s, asOf, i) <==> TrueEnd(rows, s, asOf, i)
  }

  /** The place in the tape is the order of the sequence column, which is unique. */
  ghost predicate InSequence(rows: seq<FrameRow>) {
    forall i, j :: 0 <= i < j < |rows| ==> rows[i].columns.sequence < rows[j].columns.sequence
  }

  // ---- When the columns serve it ----------------------------------------------------------

  /** Frame `i` is the right answer at some instant: its own. */
  ghost predicate Final(rows: seq<FrameRow>, s: Symbol, i: nat) {
    i < |rows| && TrueEnd(rows, s, rows[i].frame.persistedAt, i)
  }

  /** The columns say of the payload what the query asks. */
  predicate Honest(row: FrameRow, s: Symbol) {
    row.columns.symbol == s && row.columns.continuity == Admitted && row.columns.persistedAt == row.frame.persistedAt
  }

  /** The columns put the row before the query. */
  predicate Listed(row: FrameRow, s: Symbol) {
    row.columns.symbol == s && row.columns.continuity == Admitted
  }

  /** A final frame with the very clock this row claims comes after it and hides it. */
  ghost predicate Hidden(rows: seq<FrameRow>, s: Symbol, j: nat)
    requires j < |rows|
  {
    exists k: nat :: j < k && Final(rows, s, k) && rows[k].frame.persistedAt == rows[j].columns.persistedAt
  }

  ghost predicate FinalsAreHonest(rows: seq<FrameRow>, s: Symbol) {
    forall i: nat :: Final(rows, s, i) ==> Honest(rows[i], s)
  }

  ghost predicate OthersAreHidden(rows: seq<FrameRow>, s: Symbol) {
    forall j: nat :: j < |rows| && Listed(rows[j], s) && !Final(rows, s, j) ==> Hidden(rows, s, j)
  }

  // ---- Finding ends and maxima --------------------------------------------------------------

  /** If any book of the symbol was persisted by then, there is a last one. */
  lemma {:induction false} TrueEndExists(rows: seq<FrameRow>, s: Symbol, asOf: int, k: nat) returns (i: nat)
    requires k < |rows| && IsBookOf(rows[k], s) && rows[k].frame.persistedAt <= asOf
    ensures k <= i && TrueEnd(rows, s, asOf, i)
    decreases |rows| - k
  {
    if j: nat :| k < j < |rows| && IsBookOf(rows[j], s) && rows[j].frame.persistedAt <= asOf {
      i := TrueEndExists(rows, s, asOf, j);
    } else {
      i := k;
    }
  }

  /** An end at any instant is final, and of two final frames the later has the later clock. */
  lemma EndsAreFinal(rows: seq<FrameRow>, s: Symbol, asOf: int, i: nat)
    requires TrueEnd(rows, s, asOf, i)
    ensures Final(rows, s, i)
    ensures forall k: nat :: Final(rows, s, k) && rows[k].frame.persistedAt <= asOf ==>
              k == i || (k < i && rows[k].frame.persistedAt < rows[i].frame.persistedAt)
  {
  }

  ghost predicate NewestOfFirst(rows: seq<FrameRow>, n: nat, s: Symbol, asOf: int, i: nat) {
    && i < n <= |rows| && Eligible(rows[i], s, asOf)
    && forall j :: 0 <= j < n && j != i && Eligible(rows[j], s, asOf) ==> OlderThan(rows[j].columns, rows[i].columns)
  }

  /** Something is selected as soon as anything is eligible. */
  lemma {:induction false} SomethingIsSelected(rows: seq<FrameRow>, n: nat, s: Symbol, asOf: int, k: nat) returns (i: nat)
    requires InSequence(rows) && k < n <= |rows| && Eligible(rows[k], s, asOf)
    ensures NewestOfFirst(rows, n, s, asOf, i)
    decreases n
  {
    if best: nat :| best < n - 1 && Eligible(rows[best], s, asOf) {
      i := SomethingIsSelected(rows, n - 1, s, asOf, best);
      if Eligible(rows[n - 1], s, asOf) && OlderThan(rows[i].columns, rows[n - 1].columns) {
        i := n - 1;
      }
    } else {
      i := k;
    }
  }

  // ---- Columns that serve select rightly ------------------------------------------------------

  lemma SelectedIsTrueEnd(rows: seq<FrameRow>, s: Symbol, asOf: int, i: nat)
    requires InSequence(rows) && FinalsAreHonest(rows, s) && OthersAreHidden(rows, s) && Selected(rows, s, asOf, i)
    ensures TrueEnd(rows, s, asOf, i)
  {
    if !Final(rows, s, i) {
      assert Hidden(rows, s, i);
      var k: nat :| i < k && Final(rows, s, k) && rows[k].frame.persistedAt == rows[i].columns.persistedAt;
      assert Honest(rows[k], s) && Eligible(rows[k], s, asOf);
    }
    assert Final(rows, s, i) && Honest(rows[i], s);
    var end := TrueEndExists(rows, s, asOf, i);
    EndsAreFinal(rows, s, asOf, end);
    assert Honest(rows[end], s) && Eligible(rows[end], s, asOf);
  }

  lemma TrueEndIsSelected(rows: seq<FrameRow>, s: Symbol, asOf: int, i: nat)
    requires InSequence(rows) && FinalsAreHonest(rows, s) && OthersAreHidden(rows, s) && TrueEnd(rows, s, asOf, i)
    ensures Selected(rows, s, asOf, i)
  {
    EndsAreFinal(rows, s, asOf, i);
    assert Honest(rows[i], s);
    forall j | 0 <= j < |rows| && j != i && Eligible(rows[j], s, asOf)
      ensures OlderThan(rows[j].columns, rows[i].columns)
    {
      if Final(rows, s, j) {
        assert Honest(rows[j], s);
      } else {
        assert Hidden(rows, s, j);
        var k: nat :| j < k && Final(rows, s, k) && rows[k].frame.persistedAt == rows[j].columns.persistedAt;
        assert k == i || (k < i && rows[k].frame.persistedAt < rows[i].frame.persistedAt);
      }
    }
  }

  // ---- Selecting rightly needs columns that serve ---------------------------------------------

  lemma RightMeansHonest(rows: seq<FrameRow>, s: Symbol, i: nat)
    requires SelectsRightly(rows, s) && Final(rows, s, i)
    ensures Honest(rows[i], s)
  {
    var clock, column := rows[i].frame.persistedAt, rows[i].columns.persistedAt;
    assert Selected(rows, s, clock, i);
    assert Selected(rows, s, column, i);
    assert TrueEnd(rows, s, column, i);
  }

  lemma RightMeansHidden(rows: seq<FrameRow>, s: Symbol, j: nat)
    requires InSequence(rows) && SelectsRightly(rows, s) && j < |rows| && Listed(rows[j], s) && !Final(rows, s, j)
    ensures Hidden(rows, s, j)
  {
    var asOf := rows[j].columns.persistedAt;
    var k := SomethingIsSelected(rows, |rows|, s, asOf, j);
    assert Selected(rows, s, asOf, k);
    assert TrueEnd(rows, s, asOf, k);
    EndsAreFinal(rows, s, asOf, k);
    RightMeansHonest(rows, s, k);
    assert k != j;
  }

  /** The query is right at every instant exactly when every frame that is ever the right answer has
      honest symbol, continuity and clock columns, and every other row its columns put before the query
      is hidden behind such a frame of the very clock it claims. */
  lemma SelectsRightlyIff(rows: seq<FrameRow>, s: Symbol)
    requires InSequence(rows)
    ensures SelectsRightly(rows, s) <==> FinalsAreHonest(rows, s) && OthersAreHidden(rows, s)
  {
    if FinalsAreHonest(rows, s) && OthersAreHidden(rows, s) {
      forall asOf: int, i: nat
        ensures Selected(rows, s, asOf, i) <==> TrueEnd(rows, s, asOf, i)
      {
        if Selected(rows, s, asOf, i) { SelectedIsTrueEnd(rows, s, asOf, i); }
        if TrueEnd(rows, s, asOf, i) { TrueEndIsSelected(rows, s, asOf, i); }
      }
    }
    if SelectsRightly(rows, s) {
      forall i: nat | Final(rows, s, i)
        ensures Honest(rows[i], s)
      {
        RightMeansHonest(rows, s, i);
      }
      forall j: nat | j < |rows| && Listed(rows[j], s) && !Final(rows, s, j)
        ensures Hidden(rows, s, j)
      {
        RightMeansHidden(rows, s, j);
      }
    }
  }

  // ---- Writers' tapes ---------------------------------------------------------------------

  lemma WritersTapesAreInSequence(t: Tape, id: string)
    requires Good(t, id)
    ensures InSequence(t.frames)
  {
    forall i, j | 0 <= i < j < |t.frames|
      ensures t.frames[i].columns.sequence < t.frames[j].columns.sequence
    {
      assert FrameRowOk(id, t.frames, i) && FrameRowOk(id, t.frames, j);
    }
  }

  /** On a tape whose columns are its payloads every listed book is final or hidden behind the last one
      of its clock, as long as the symbol's clock never runs back. */
  lemma HonestBooksHide(rows: seq<FrameRow>, s: Symbol, j: nat)
    requires j < |rows| && IsBookOf(rows[j], s) && Honest(rows[j], s) && !Final(rows, s, j)
    requires forall k :: j < k < |rows| && IsBookOf(rows[k], s) ==> rows[j].frame.persistedAt <= rows[k].frame.persistedAt
    ensures Hidden(rows, s, j)
  {
    var k := TrueEndExists(rows, s, rows[j].frame.persistedAt, j);
    EndsAreFinal(rows, s, rows[j].frame.persistedAt, k);
    assert k != j;
  }

  /** Every column says what the payload says, all books are admitted and a symbol's clock never runs back. */
  ghost predicate Faithful(rows: seq<FrameRow>) {
    && (forall i :: 0 <= i < |rows| ==> rows[i].columns == rows[i].frame && rows[i].frame.continuity == Admitted)
    && (forall i, j :: 0 <= i < j < |rows| && rows[i].frame.symbol == rows[j].frame.symbol ==>
          rows[i].frame.persistedAt <= rows[j].frame.persistedAt)
  }

  lemma FaithfulRowsSelectRightly(rows: seq<FrameRow>, s: Symbol)
    requires InSequence(rows) && Faithful(rows)
    ensures SelectsRightly(rows, s)
  {
    forall j: nat | j < |rows| && Listed(rows[j], s) && !Final(rows, s, j)
      ensures Hidden(rows, s, j)
    {
      HonestBooksHide(rows, s, j);
    }
    SelectsRightlyIff(rows, s);
  }

  lemma WritersTapesAreFaithful(t: Tape, id: string)
    requires Good(t, id) && t.mode != Blocked
    ensures Faithful(t.frames)
  {
    forall i, j | 0 <= i < j < |t.frames| && t.frames[i].frame.symbol == t.frames[j].frame.symbol
      ensures t.frames[i].frame.persistedAt <= t.frames[j].frame.persistedAt
    {
      GoodTapesStream(t, id, i, j);
    }
  }

  /** On every unblocked tape the writers produce, the query is right for every symbol and instant. */
  lemma WritersTapesSelectRightly(t: Tape, id: string, s: Symbol)
    requires Good(t, id) && t.mode != Blocked
    ensures SelectsRightly(t.frames, s)
  {
    WritersTapesAreInSequence(t, id);
    WritersTapesAreFaithful(t, id);
    FaithfulRowsSelectRightly(t.frames, s);
  }

  // ---- Altered columns ----------------------------------------------------------------------

  function WithClock(t: Tape, i: nat, clock: int): Tape
    requires i < |t.frames|
  {
    t.(frames := t.frames[i := t.frames[i].(columns := t.frames[i].columns.(persistedAt := clock))])
  }

  function WithSymbol(t: Tape, i: nat, s: Symbol): Tape
    requires i < |t.frames|
  {
    t.(frames := t.frames[i := t.frames[i].(columns := t.frames[i].columns.(symbol := s))])
  }

  /** Move one frame's persisted-clock column past all its symbol's clocks, on any writers' tape: the
      tape still verifies, but if a later frame of the symbol exists the altered frame is now selected
      in its place. */
  lemma AlteredClockSelectsWrongly(t: Tape, id: string, i: nat, j: nat, clock: int)
    requires Good(t, id) && t.mode != Blocked && i < j < |t.frames| && t.frames[i].columns.symbol == t.frames[j].columns.symbol
    requires forall k :: 0 <= k < |t.frames| && t.frames[k].columns.symbol == t.frames[i].columns.symbol ==>
               t.frames[k].columns.persistedAt < clock
    ensures var altered, s := WithClock(t, i, clock), t.frames[i].columns.symbol;
            && Verifies(altered, id) && altered.mode == t.mode && altered.tapeSha == t.tapeSha
            && Selected(altered.frames, s, clock, i) && !TrueEnd(altered.frames, s, clock, i)
  {
    VerificationIgnoresTheClockColumn(t, id, i, clock);
    LateClockWins(t.frames, i, j, clock);
  }

  lemma LateClockWins(rows: seq<FrameRow>, i: nat, j: nat, clock: int)
    requires i < j < |rows| && rows[i].columns.symbol == rows[j].columns.symbol
    requires rows[i].columns.continuity == Admitted && IsBookOf(rows[j], rows[i].columns.symbol)
    requires rows[j].frame.persistedAt == rows[j].columns.persistedAt
    requires forall k :: 0 <= k < |rows| && rows[k].columns.symbol == rows[i].columns.symbol ==> rows[k].columns.persistedAt < clock
    ensures var s := rows[i].columns.symbol;
            var altered := rows[i := rows[i].(columns := rows[i].columns.(persistedAt := clock))];
            Selected(altered, s, clock, i) && !TrueEnd(altered, s, clock, i)
  {
    var altered := rows[i := rows[i].(columns := rows[i].columns.(persistedAt := clock))];
    assert altered[j] == rows[j];
  }

  // ---- Concrete tapes -------------------------------------------------------------------

  const FIRST := Frame("tape", 1, Btc, "epoch", 1, 0, 0, 10, Admitted, None, "")
  const SECOND := Frame("tape", 2, Btc, "epoch", 2, 0, 0, 20, Admitted, Some(FrameLeaf(FIRST)), "")

  const ROW1 := FrameRow(FIRST, FrameLeaf(FIRST), BookChain("tape", None, FrameLeaf(FIRST)), FramePayload(FIRST), FIRST)
  const ROW2 := FrameRow(SECOND, FrameLeaf(SECOND), BookChain("tape", Some(ROW1.chainSha), FrameLeaf(SECOND)), FramePayload(SECOND), SECOND)
  const ONE := NEW_TAPE.(frames := [ROW1], bookCount := 1, bookHead := Some(ROW1.chainSha))
  const TWO := NEW_TAPE.(frames := [ROW1, ROW2], bookCount := 2, bookHead := Some(ROW2.chainSha))

  lemma SecondBook()
    ensures Apply(ONE, "tape", RecordFrame(SECOND, FrameLeaf(SECOND))) == TWO
  {
    assert ONE.frames[..0] == [];
    assert FindSequence(ONE.frames, 2).None? && FindSha(ONE.frames, FrameLeaf(SECOND)).None?;
    assert LastOf(ONE.frames, 1, Btc) == Some(FIRST);
    assert ONE.frames + [ROW2] == TWO.frames;
  }

  /** Two books of one symbol, recorded at 10 and 20, verify. */
  lemma TwoBooksAreRecorded()
    ensures Apply(Apply(NEW_TAPE, "tape", RecordFrame(FIRST, FrameLeaf(FIRST))), "tape", RecordFrame(SECOND, FrameLeaf(SECOND))) == TWO
    ensures Good(TWO, "tape")
  {
    assert Apply(NEW_TAPE, "tape", RecordFrame(FIRST, FrameLeaf(FIRST))) == ONE;
    SecondBook();
    NewTapeIsGood("tape");
    ApplyKeepsGood(NEW_TAPE, "tape", RecordFrame(FIRST, FrameLeaf(FIRST)));
    ApplyKeepsGood(ONE, "tape", RecordFrame(SECOND, FrameLeaf(SECOND)));
  }

  /** Whatever their sort columns are changed to, the two books verify. */
  lemma AlteredBooksVerify(rows: seq<FrameRow>)
    requires SortColumnsOnly(TWO.frames, rows)
    ensures Verifies(TWO.(frames := rows), "tape")
  {
    TwoBooksAreRecorded();
    VerificationIgnoresSortColumns(TWO, "tape", rows);
  }

  /** What the query does with two books of one symbol, persisted at 10 and 20, under various columns. */
  lemma LateFirstColumn(rows: seq<FrameRow>)
    requires |rows| == 2 && forall i :: 0 <= i < 2 ==> Listed(rows[i], Btc) && IsBookOf(rows[i], Btc)
    requires rows[0].columns.persistedAt == 30 && rows[1].columns.persistedAt == 20 && rows[1].frame.persistedAt == 20
    ensures Selected(rows, Btc, 30, 0) && TrueEnd(rows, Btc, 30, 1) && !TrueEnd(rows, Btc, 30, 0)
  {
  }

  lemma EarlyColumns(rows: seq<FrameRow>)
    requires |rows| == 2 && forall i :: 0 <= i < 2 ==> Listed(rows[i], Btc) && IsBookOf(rows[i], Btc)
    requires rows[0].columns.persistedAt == 5 && rows[1].columns.persistedAt == 15 && rows[1].frame.persistedAt == 20
    ensures Selected(rows, Btc, 15, 1) && !TrueEnd(rows, Btc, 15, 1)
  {
  }

  lemma ForeignColumn(rows: seq<FrameRow>)
    requires |rows| == 2 && Listed(rows[0], Btc) && Listed(rows[1], Eth) && forall i :: 0 <= i < 2 ==> IsBookOf(rows[i], Btc)
    requires rows[0].columns.persistedAt == 10 && rows[1].columns.persistedAt == 20 && rows[1].frame.persistedAt == 20
    ensures Selected(rows, Eth, 20, 1) && !TrueEnd(rows, Eth, 20, 1)
    ensures Selected(rows, Btc, 20, 0) && TrueEnd(rows, Btc, 20, 1) && !TrueEnd(rows, Btc, 20, 0)
  {
  }

  /** The older book's clock column moved to 30: the verified tape answers with the older book. */
  lemma TwoBooksSelectWrongly()
    ensures var t := WithClock(TWO, 0, 30);
            && Verifies(t, "tape") && Selected(t.frames, Btc, 30, 0)
            && TrueEnd(t.frames, Btc, 30, 1) && !SelectsRightly(t.frames, Btc)
  {
    AlteredBooksVerify(WithClock(TWO, 0, 30).frames);
    LateFirstColumn(WithClock(TWO, 0, 30).frames);
  }

  /** Both clock columns moved back, still in order: the verified tape answers at 15 with the book that
      was persisted at 20. */
  lemma EarlyClocksLookAhead()
    ensures var t := WithClock(WithClock(TWO, 0, 5), 1, 15);
            && Verifies(t, "tape") && Selected(t.frames, Btc, 15, 1) && t.frames[1].frame.persistedAt == 20
            && !SelectsRightly(t.frames, Btc)
  {
    var t := WithClock(WithClock(TWO, 0, 5), 1, 15);
    AlteredBooksVerify(t.frames);
    EarlyColumns(t.frames);
  }

  /** The newer book's symbol column changed: the verified tape answers a query for the other symbol with
      this book, and a query for its own symbol with the older one. */
  lemma ForeignSymbolIsSelected()
    ensures var t := WithSymbol(TWO, 1, Eth);
            && Verifies(t, "tape")
            && Selected(t.frames, Eth, 20, 1) && t.frames[1].frame.symbol == Btc && !SelectsRightly(t.frames, Eth)
            && Selected(t.frames, Btc, 20, 0) && TrueEnd(t.frames, Btc, 20, 1) && !SelectsRightly(t.frames, Btc)
  {
    var t := WithSymbol(TWO, 1, Eth);
    AlteredBooksVerify(t.frames);
    ForeignColumn(t.frames);
  }
}
