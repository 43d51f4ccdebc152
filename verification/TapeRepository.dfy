/** The tape methods of SimulationRepository: recorders, sealer, verifier and the two readers. */
module TapeRepository {
  import opened Common
  import opened TapeState
  import opened TapeIntegrity

  // ---- Pages of bars --------------------------------------------------------------------

  function Payloads(rows: seq<BarRow>): (bars: seq<Bar>)
    ensures |bars| == |rows| && forall i :: 0 <= i < |rows| ==> bars[i] == rows[i].bar
  {
    seq(|rows|, i requires 0 <= i < |rows| => rows[i].bar)
  }

  /** The place after the bar with an open time, among the first `n`. */
  function PlaceAfter(rows: seq<BarRow>, n: nat, openTime: int): (place: Option<nat>)
    requires n <= |rows|
    ensures place.Some? ==> 0 < place.value <= n && rows[place.value - 1].openTime == openTime
    ensures place.None? ==> forall i :: 0 <= i < n ==> rows[i].openTime != openTime
  {
    if n == 0 then None else if rows[n - 1].openTime == openTime then Some(n) else PlaceAfter(rows, n - 1, openTime)
  }

  /** Where a page begins: at the start, or after the stored bar its cursor names. */
  function PageStart(rows: seq<BarRow>, after: Option<int>): (start: Option<nat>)
    ensures start.Some? ==> start.value <= |rows|
  {
    if after.None? then Some(0) else PlaceAfter(rows, |rows|, after.value)
  }

  function Least(a: nat, b: nat): nat {
    if a <= b then a else b
  }

  /** The rows of a page are the slice that follows its cursor. */
  function Page(rows: seq<BarRow>, after: Option<int>, limit: nat): (page: Option<seq<BarRow>>)
    ensures page.None? <==> PageStart(rows, after).None?
  {
    var start := PageStart(rows, after);
    if start.None? then None else Some(rows[start.value..Least(start.value + limit, |rows|)])
  }

  function PageReply(rows: seq<BarRow>, after: Option<int>, limit: nat): Result<seq<Bar>, Error> {
    var page := Page(rows, after, limit);
    if page.None? then Err(BadCursor) else Ok(Payloads(page.value))
  }

  /** The cursor a reader holds after the bars it has got. */
  function CursorOf(got: seq<BarRow>): Option<int> {
    if got == [] then None else Some(got[|got| - 1].openTime)
  }

  /** Read page after page until one is empty. */
  function ReadOn(rows: seq<BarRow>, got: seq<BarRow>, limit: nat, fuel: nat): seq<BarRow>
    decreases fuel
  {
    var page := Page(rows, CursorOf(got), limit);
    if fuel == 0 || page.None? || page.value == [] then got else ReadOn(rows, got + page.value, limit, fuel - 1)
  }

  lemma OpenTimesRise(rows: seq<BarRow>)
    requires Contiguous(rows)
    ensures forall i, j :: 0 <= i < j < |rows| ==> rows[i].openTime < rows[j].openTime
  {
    forall i, j | 0 <= i < j < |rows|
      ensures rows[i].openTime < rows[j].openTime
    {
      assert rows[i].openTime <= rows[i].closeTime < rows[j].openTime;
    }
  }

  /** A stored bar's open time names the place after it. */
  ghost predicate Names(rows: seq<BarRow>, k: nat) {
    k < |rows| && PageStart(rows, Some(rows[k].openTime)) == Some(k + 1)
  }

  ghost predicate CursorsWork(rows: seq<BarRow>) {
    forall k: nat {:trigger Names(rows, k)} :: k < |rows| ==> Names(rows, k)
  }

  lemma ContiguousCursorsWork(rows: seq<BarRow>)
    requires Contiguous(rows)
    ensures CursorsWork(rows)
  {
    OpenTimesRise(rows);
  }

  /** After the first `k` bars, the next page is the next bars. */
  lemma PageAt(rows: seq<BarRow>, k: nat, limit: nat)
    requires CursorsWork(rows) && k <= |rows|
    ensures Page(rows, CursorOf(rows[..k]), limit) == Some(rows[k..Least(k + limit, |rows|)])
  {
    if k > 0 {
      assert Names(rows, k - 1) && rows[..k][k - 1] == rows[k - 1];
    }
  }

  lemma Extend<T>(s: seq<T>, k: nat, end: nat)
    requires k <= end <= |s|
    ensures s[..k] + s[k..end] == s[..end]
  {
  }

  lemma ReadStep(rows: seq<BarRow>, k: nat, limit: nat, fuel: nat)
    requires CursorsWork(rows) && limit > 0 && k <= |rows| && fuel > 0
    ensures ReadOn(rows, rows[..k], limit, fuel)
            == if k == |rows| then rows else ReadOn(rows, rows[..Least(k + limit, |rows|)], limit, fuel - 1)
  {
    PageAt(rows, k, limit);
    Extend(rows, k, Least(k + limit, |rows|));
    assert k == |rows| ==> rows[..k] == rows;
  }

  lemma {:induction false} ReadFrom(rows: seq<BarRow>, k: nat, limit: nat, fuel: nat)
    requires CursorsWork(rows) && limit > 0 && k <= |rows| && fuel > |rows| - k
    ensures ReadOn(rows, rows[..k], limit, fuel) == rows
    decreases fuel
  {
    ReadStep(rows, k, limit, fuel);
    if k < |rows| {
      ReadFrom(rows, Least(k + limit, |rows|), limit, fuel - 1);
    }
  }

  /** Reading page after page skips nothing and repeats nothing, whatever the page size. */
  lemma PagesCoverTheTape(rows: seq<BarRow>, limit: nat)
    requires Contiguous(rows) && limit > 0
    ensures ReadOn(rows, [], limit, |rows| + 1) == rows
  {
    ContiguousCursorsWork(rows);
    ReadFrom(rows, 0, limit, |rows| + 1);
    assert rows[..0] == [];
  }

  lemma SequencesRise(id: string, rows: seq<FrameRow>)
    requires FramesOk(id, rows) && FrameColumns(id, rows)
    ensures forall i, j :: 0 <= i < j < |rows| ==> rows[i].columns.sequence < rows[j].columns.sequence
  {
    forall i, j | 0 <= i < j < |rows|
      ensures rows[i].columns.sequence < rows[j].columns.sequence
    {
      assert FrameRowOk(id, rows, i) && FrameRowOk(id, rows, j);
    }
  }

  lemma SelectionEverywhere(t: Tape, id: string, s: Symbol, asOf: int)
    requires Good(t, id) && t.mode == Sealed
    ensures forall i: nat :: Selected(t.frames, s, asOf, i) <==> EndsVisiblePrefix(t.frames, s, asOf, i)
    ensures forall i: nat :: EndsVisiblePrefix(t.frames, s, asOf, i) ==> Eligible(t.frames[i], s, asOf)
  {
    forall i: nat
      ensures Selected(t.frames, s, asOf, i) <==> EndsVisiblePrefix(t.frames, s, asOf, i)
    {
      SelectionIsTapeOrder(t, id, s, asOf, i);
    }
  }

  // ---- The repository -------------------------------------------------------------------

  class SimulationRepository {
    var tapes: map<string, Tape>

    ghost predicate Valid()
      reads this
    {
      forall id :: id in tapes ==> Good(tapes[id], id)
    }

    constructor ()
      ensures Valid() && tapes == map[]
    {
      tapes := map[];
    }

    /** The tape a recorder would append to; a new one is stored only if the call succeeds. */
    function OpenTape(id: string): Tape
      reads this
    {
      if id in tapes then tapes[id] else NEW_TAPE
    }

    method RecordClosedBar(id: string, bar: Bar, messageId: Sha) returns (r: Result<bool, Error>)
      requires Valid() && bar.openTime <= bar.closeTime
      modifies this
      ensures Valid()
      ensures var spec := AddBar(old(OpenTape(id)), id, bar, messageId);
              && r == (if spec.Err? then Err(spec.error) else Ok(spec.value.created))
              && tapes == if spec.Err? then old(tapes) else old(tapes)[id := spec.value.tape]
    {
      var t := OpenTape(id);
      var rows := BarsOf(t, bar.symbol);
      if bar.symbol !in UNIVERSE || bar.venue != "BINANCE_UM" || messageId != BarLeaf(bar) {
        return Err(BadInput);
      }
      if t.mode != Open {
        return Err(NotOpen);
      }
      var existing := FindBar(rows, bar.openTime);
      if existing.Some? {
        if !SameBar(existing.value, bar) {
          return Err(Conflict);
        }
        assert AddBar(t, id, bar, messageId) == Ok(Appended(t, false));
        tapes := tapes[id := t];
        return Ok(false);
      }
      var previousBar, previousChain := None, None;
      if rows != [] {
        var previous := rows[|rows| - 1];
        if bar.openTime != previous.closeTime + 1 {
          return Err(NotContiguous);
        }
        previousBar, previousChain := Some(previous.barSha), Some(previous.chainSha);
      }
      AddBarKeepsGood(t, id, bar, messageId);
      var chain := BarChain(id, bar.symbol, previousChain, BarLeaf(bar));
      var row := BarRow(bar.symbol, bar.openTime, bar.closeTime, BarLeaf(bar), previousBar, chain, BarPayload(bar), bar);
      tapes := tapes[id := t.(bars := t.bars[bar.symbol := rows + [row]])];
      r := Ok(true);
    }

    method RecordBookFrame(frame: Frame, messageId: Sha) returns (r: Result<bool, Error>)
      requires Valid()
      modifies this
      ensures Valid() && r != Err(Relocated)
      ensures var spec := AddFrame(old(OpenTape(frame.tape)), frame, messageId);
              && r == (if spec.Err? then Err(spec.error) else Ok(spec.value.created))
              && tapes == if spec.Err? then old(tapes) else old(tapes)[frame.tape := spec.value.tape]
    {
      var t := OpenTape(frame.tape);
      FramesNeverRelocate(t, frame.tape, frame, messageId);
      var appended := AppendFrame(t, frame, messageId);
      if appended.Err? {
        return Err(appended.error);
      }
      AddFrameKeepsGood(t, frame.tape, frame, messageId);
      tapes := tapes[frame.tape := appended.value.tape];
      r := Ok(appended.value.created);
    }

    /** The checks of `record_book_frame`, and the rows it inserts and updates. */
    method AppendFrame(t: Tape, frame: Frame, messageId: Sha) returns (r: Result<Appended, Error>)
      ensures r == AddFrame(t, frame, messageId)
    {
      if messageId != FrameLeaf(frame) {
        return Err(BadInput);
      }
      if t.mode != Open {
        return Err(NotOpen);
      }
      var existing := FindSequence(t.frames, frame.sequence);
      if existing.Some? {
        return if SameFrame(existing.value, frame) then Ok(Appended(t, false)) else Err(Conflict);
      }
      var sameHash := FindSha(t.frames, FrameLeaf(frame));
      if sameHash.Some? {
        return Err(if SameFrame(sameHash.value, frame) then Relocated else Conflict);
      }
      var wrong := Extends(t.frames, frame);
      if wrong.None? {
        wrong := Continues(LastOf(t.frames, |t.frames|, frame.symbol), frame);
      }
      if wrong.Some? {
        return Err(wrong.value);
      }
      var row := FrameRowFor(t.frames, frame);
      var mode := if frame.continuity == Admitted then t.mode else Blocked;
      var grown := t.(frames := t.frames + [row], bookCount := t.bookCount + 1, bookHead := Some(row.chainSha), mode := mode);
      r := Ok(Appended(grown, true));
    }

    method Seal(id: string, source: string, sealedAt: nat) returns (r: Result<Seal, Error>)
      requires Valid()
      modifies this
      ensures Valid()
      ensures id !in old(tapes) ==> r == Err(UnknownTape) && tapes == old(tapes)
      ensures id in old(tapes) ==>
        var spec := SealTape(old(tapes)[id], id, source, sealedAt);
        if spec.Err? then r == Err(spec.error) && tapes == old(tapes)
        else spec.value.seal.Some? && r == Ok(spec.value.seal.value) && tapes == old(tapes)[id := spec.value]
    {
      if id !in tapes {
        return Err(UnknownTape);
      }
      var t := tapes[id];
      if t.mode == Blocked {
        return Err(HasBarrier);
      }
      if t.mode == Sealed {
        tapes := tapes[id := t];
        return Ok(t.seal.value);
      }
      if !Complete(t) {
        return Err(Incomplete);
      }
      SealKeepsGood(t, id, source, sealedAt);
      var made := SealFor(t, id, source, sealedAt);
      tapes := tapes[id := t.(mode := Sealed, tapeSha := Some(SealSha(made)), seal := Some(made))];
      r := Ok(made);
    }

    /** One symbol's bars: the loop keeps the previous bar's close, hash and chain. */
    method VerifySymbol(id: string, s: Symbol, rows: seq<BarRow>) returns (r: Result<bool, Error>, head: Option<ChainHead>)
      ensures r == Ok(true) <==> BarsOk(id, s, rows)
      ensures r == Ok(true) ==> head == if rows == [] then None else Some(HeadOf(rows))
      ensures r.Err? ==> exists i :: 0 <= i < |rows| && rows[i].payloadSha != BarPayload(rows[i].bar)
    {
      var previousBar, previousChain: Option<Sha>, previousClose := None, None, 0;
      head := None;
      for i := 0 to |rows|
        invariant forall k :: 0 <= k < i ==> BarRowOk(id, s, rows, k)
        invariant (previousBar, previousChain) == ShaBefore(rows, i)
        invariant i > 0 ==> previousClose == rows[i - 1].closeTime
        invariant head == if i == 0 then None else Some(ChainHead(i, rows[i - 1].chainSha))
      {
        var row := rows[i];
        if row.payloadSha != BarPayload(row.bar) {
          assert !BarRowOk(id, s, rows, i);
          return Err(Conflict), None;
        }
        var chain := BarChain(id, s, previousChain, row.barSha);
        if row.barSha != BarLeaf(row.bar) || row.bar.symbol != row.symbol || row.symbol != s
           || row.bar.openTime != row.openTime || row.bar.closeTime != row.closeTime
           || (previousBar.Some? && row.openTime != previousClose + 1)
           || row.previousBarSha != previousBar || row.chainSha != chain {
          assert !BarRowOk(id, s, rows, i);
          return Ok(false), None;
        }
        previousBar, previousChain, previousClose := Some(row.barSha), Some(chain), row.closeTime;
        head := Some(ChainHead(i + 1, chain));
      }
      r := Ok(true);
    }

    /** The global book: the loop keeps each symbol's newest stream position. */
    method VerifyFrames(id: string, rows: seq<FrameRow>) returns (r: Result<bool, Error>, head: Option<Sha>)
      ensures r == Ok(true) <==> FramesOk(id, rows)
      ensures r == Ok(true) ==> head == FrameShaBefore(rows, |rows|).1
      ensures r.Err? ==> exists i :: 0 <= i < |rows| && !StoredFrame(rows[i])
    {
      var previousFrame: Option<Sha>, clocks: map<Symbol, Frame> := None, map[];
      head := None;
      for i := 0 to |rows|
        invariant forall k :: 0 <= k < i ==> FrameRowOk(id, rows, k)
        invariant (previousFrame, head) == FrameShaBefore(rows, i)
        invariant forall s :: LastPayload(rows, i, s) == if s in clocks then Some(clocks[s]) else None
      {
        var row := rows[i];
        var frame := row.frame;
        if !StoredFrame(row) {
          assert !FrameRowOk(id, rows, i);
          return Err(Conflict), None;
        }
        var before := if frame.symbol in clocks then Some(clocks[frame.symbol]) else None;
        assert before == LastPayload(rows, i, frame.symbol);
        var chain := BookChain(id, head, row.frameSha);
        if frame.sequence != i + 1 || frame.previous != previousFrame || row.chainSha != chain || Continues(before, frame).Some? {
          assert !FrameRowOk(id, rows, i);
          return Ok(false), None;
        }
        clocks := clocks[frame.symbol := frame];
        previousFrame, head := Some(row.frameSha), Some(chain);
      }
      r := Ok(true);
    }

    /** `verify_tape` on stored rows that anyone may have touched. */
    method VerifyTape(id: string) returns (r: Result<bool, Error>)
      ensures r == Ok(true) <==> id in tapes && Verifies(tapes[id], id)
    {
      if id !in tapes {
        return Ok(false);
      }
      var t := tapes[id];
      var heads: map<Symbol, ChainHead> := map[];
      var todo := t.bars.Keys;
      while todo != {}
        invariant todo <= t.bars.Keys
        invariant forall s :: s in t.bars && s !in todo ==> BarsOk(id, s, t.bars[s])
        invariant heads == map s | s in t.bars && s !in todo && t.bars[s] != [] :: HeadOf(t.bars[s])
      {
        var s :| s in todo;
        var ok, head := VerifySymbol(id, s, t.bars[s]);
        if ok != Ok(true) {
          return ok;
        }
        if head.Some? {
          heads := heads[s := head.value];
        }
        todo := todo - {s};
      }
      var head;
      r, head := VerifyFrames(id, t.frames);
      if r != Ok(true) {
        return;
      }
      if t.bookCount != |t.frames| || t.bookHead != head {
        return Ok(false);
      }
      if t.mode == Sealed {
        if t.seal.None? {
          return Err(Conflict);
        }
        var stored := t.seal.value;
        if t.tapeSha != Some(SealSha(stored)) || stored.bars != heads || head.None? || stored.book != ChainHead(|t.frames|, head.value) {
          return Ok(false);
        }
      }
    }

    /** `load_latest_book_frame`: the first row in (persisted clock, sequence) descending order. */
    method LoadLatestBookFrame(id: string, s: Symbol, asOf: nat) returns (r: Result<Option<Frame>, Error>)
      requires Valid()
      ensures s !in UNIVERSE ==> r == Err(BadInput)
      ensures s in UNIVERSE && id !in tapes ==> r == Err(UnknownTape)
      ensures s in UNIVERSE && id in tapes && tapes[id].mode != Sealed ==> r == Err(NotSealed)
      ensures s in UNIVERSE && id in tapes && tapes[id].mode == Sealed ==>
        var rows := tapes[id].frames;
        if exists i: nat :: EndsVisiblePrefix(rows, s, asOf, i) then
          r.Ok? && r.value.Some? && exists i: nat :: EndsVisiblePrefix(rows, s, asOf, i) && rows[i].frame == r.value.value
        else r == Ok(None)
    {
      if s !in UNIVERSE {
        return Err(BadInput);
      }
      if id !in tapes {
        return Err(UnknownTape);
      }
      if tapes[id].mode != Sealed {
        return Err(NotSealed);
      }
      var rows := tapes[id].frames;
      SequencesRise(id, rows);
      var best: Option<nat> := NewestOf(rows, s, asOf);
      SelectionEverywhere(tapes[id], id, s, asOf);
      if best.None? {
        return Ok(None);
      }
      assert EndsVisiblePrefix(rows, s, asOf, best.value);
      r := Ok(Some(rows[best.value].frame));
    }

    method NewestOf(rows: seq<FrameRow>, s: Symbol, asOf: int) returns (best: Option<nat>)
      requires forall i, j :: 0 <= i < j < |rows| ==> rows[i].columns.sequence < rows[j].columns.sequence
      ensures best.Some? ==> Selected(rows, s, asOf, best.value)
      ensures best.None? ==> forall i :: 0 <= i < |rows| ==> !Eligible(rows[i], s, asOf)
    {
      best := None;
      for n := 0 to |rows|
        invariant best.Some? ==> best.value < n && Eligible(rows[best.value], s, asOf)
        invariant best.Some? ==> forall j :: 0 <= j < n && j != best.value && Eligible(rows[j], s, asOf) ==>
                                   OlderThan(rows[j].columns, rows[best.value].columns)
        invariant best.None? ==> forall i :: 0 <= i < n ==> !Eligible(rows[i], s, asOf)
      {
        if Eligible(rows[n], s, asOf) && (best.None? || OlderThan(rows[best.value].columns, rows[n].columns)) {
          best := Some(n);
        }
      }
    }

    /** `load_closed_bar_page`. */
    method LoadClosedBarPage(id: string, s: Symbol, after: Option<int>, limit: int) returns (r: Result<seq<Bar>, Error>)
      requires Valid()
      ensures s !in UNIVERSE || !(1 <= limit <= 10_000) ==> r == Err(BadInput)
      ensures s in UNIVERSE && 1 <= limit <= 10_000 ==>
        r == if id !in tapes then Err(UnknownTape) else if tapes[id].mode != Sealed then Err(NotSealed)
             else PageReply(tapes[id].bars[s], after, limit)
    {
      if s !in UNIVERSE || limit < 1 || limit > 10_000 {
        return Err(BadInput);
      }
      if id !in tapes {
        return Err(UnknownTape);
      }
      if tapes[id].mode != Sealed {
        return Err(NotSealed);
      }
      var rows := tapes[id].bars[s];
      r := ReadPage(id, s, rows, after, limit);
    }

    /** The query and its contiguity check. */
    method ReadPage(id: string, s: Symbol, rows: seq<BarRow>, after: Option<int>, limit: nat) returns (r: Result<seq<Bar>, Error>)
      requires BarsOk(id, s, rows) && Contiguous(rows)
      ensures r == PageReply(rows, after, limit)
    {
      var previousClose := None;
      if after.Some? {
        var cursor := FindBar(rows, after.value);
        if cursor.None? {
          FindBarIff(rows, after.value);
          return Err(BadCursor);
        }
        previousClose := Some(cursor.value.closeTime);
      }
      OpenTimesRise(rows);
      var page := RowsAfter(rows, after, limit);
      r := CheckPage(id, s, rows, PageStart(rows, after).value, page, previousClose);
    }

    /** WHERE open_time_ms > after ORDER BY open_time_ms LIMIT limit. */
    method RowsAfter(rows: seq<BarRow>, after: Option<int>, limit: nat) returns (page: seq<BarRow>)
      requires (forall i, j :: 0 <= i < j < |rows| ==> rows[i].openTime < rows[j].openTime) && PageStart(rows, after).Some?
      ensures var start := PageStart(rows, after).value; page == rows[start..Least(start + limit, |rows|)]
    {
      ghost var start := PageStart(rows, after).value;
      page := [];
      var i := 0;
      while i < |rows| && |page| < limit
        invariant 0 <= i <= |rows|
        invariant page == if i < start then [] else rows[start..i]
        invariant |page| <= limit
      {
        if after.None? || rows[i].openTime > after.value {
          page := page + [rows[i]];
        }
        i := i + 1;
      }
    }

    /** Every returned row is compared with its payload and with the row before it. */
    method CheckPage(id: string, s: Symbol, rows: seq<BarRow>, start: nat, page: seq<BarRow>, cursorClose: Option<int>)
      returns (r: Result<seq<Bar>, Error>)
      requires BarsOk(id, s, rows) && start <= start + |page| <= |rows| && page == rows[start..start + |page|]
      requires cursorClose.Some? ==> start > 0 && cursorClose == Some(rows[start - 1].closeTime)
      ensures r == Ok(Payloads(page))
    {
      var bars: seq<Bar>, previousClose := [], cursorClose;
      for k := 0 to |page|
        invariant bars == Payloads(page[..k])
        invariant previousClose.Some? ==> start + k > 0 && previousClose == Some(rows[start + k - 1].closeTime)
      {
        var row := page[k];
        assert row == rows[start + k] && BarRowOk(id, s, rows, start + k);
        if row.payloadSha != BarPayload(row.bar) || row.bar.symbol != s || row.bar.openTime != row.openTime
           || row.bar.closeTime != row.closeTime || row.barSha != BarLeaf(row.bar)
           || (previousClose.Some? && row.openTime != previousClose.value + 1) {
          return Err(Conflict);
        }
        bars := bars + [row.bar];
        previousClose := Some(row.closeTime);
      }
      assert page[..|page|] == page;
      r := Ok(bars);
    }
  }
}
