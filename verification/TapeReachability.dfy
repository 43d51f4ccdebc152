/** Which tapes can be recorded at all: exactly those that verify with honest sort columns, whole
    bars, barriers only at the end, and a seal over all five symbols.  So nothing the writers
    produce is refused by the verifier, and nothing this invariant admits is out of their reach. */
module TapeReachability {
  import opened Common
  import opened TapeState
  import opened TapeIntegrity

  lemma {:induction false} ApplyAppend(t: Tape, id: string, a: seq<Op>, b: seq<Op>)
    ensures ApplyAll(t, id, a + b) == ApplyAll(ApplyAll(t, id, a), id, b)
    decreases |a|
  {
    if a == [] {
      assert a + b == b;
    } else {
      assert (a + b)[0] == a[0] && (a + b)[1..] == a[1..] + b;
      ApplyAppend(Apply(t, id, a[0]), id, a[1..], b);
    }
  }

  lemma ApplySnoc(t: Tape, id: string, a: seq<Op>, op: Op)
    ensures ApplyAll(t, id, a + [op]) == Apply(ApplyAll(t, id, a), id, op)
  {
    ApplyAppend(t, id, a, [op]);
    assert [op][1..] == [];
  }

  /** Recording the next stored bar gives back its stored row. */
  lemma NextBar(t: Tape, id: string, s: Symbol, rows: seq<BarRow>, n: nat)
    requires t.mode == Open && s in UNIVERSE && BarsOk(id, s, rows) && Contiguous(rows) && n < |rows|
    requires BarsOf(t, s) == rows[..n] && rows[n].bar.venue == "BINANCE_UM"
    ensures Apply(t, id, RecordBar(rows[n].bar, BarLeaf(rows[n].bar))) == t.(bars := t.bars[s := rows[..n + 1]])
  {
    assert BarRowOk(id, s, rows, n);
    FindBarIff(rows[..n], rows[n].openTime);
    assert forall i :: 0 <= i < n ==> rows[i].openTime <= rows[i].closeTime < rows[n].openTime;
    assert ShaBefore(rows[..n], n) == ShaBefore(rows, n);
    assert rows[..n] + [BarRowFor(id, rows[..n], rows[n].bar)] == rows[..n + 1];
  }

  lemma {:induction false} RebuildSymbol(t: Tape, id: string, s: Symbol, rows: seq<BarRow>, n: nat) returns (ops: seq<Op>)
    requires t.mode == Open && s in UNIVERSE && s !in t.bars && BarsOk(id, s, rows) && Contiguous(rows) && 0 < n <= |rows|
    requires forall i :: 0 <= i < |rows| ==> rows[i].bar.venue == "BINANCE_UM"
    ensures Sane(ops) && ApplyAll(t, id, ops) == t.(bars := t.bars[s := rows[..n]])
    decreases n
  {
    var u := t;
    ops := [];
    if n > 1 {
      ops := RebuildSymbol(t, id, s, rows, n - 1);
      u := t.(bars := t.bars[s := rows[..n - 1]]);
    }
    NextBar(u, id, s, rows, n - 1);
    assert BarRowOk(id, s, rows, n - 1);
    ApplySnoc(t, id, ops, RecordBar(rows[n - 1].bar, BarLeaf(rows[n - 1].bar)));
    ops := ops + [RecordBar(rows[n - 1].bar, BarLeaf(rows[n - 1].bar))];
    assert u.bars[s := rows[..n]] == t.bars[s := rows[..n]];
  }

  /** Every bar comes from the one venue the recorder accepts. */
  ghost predicate FromVenue(bars: map<Symbol, seq<BarRow>>) {
    forall s, i :: s in bars && 0 <= i < |bars[s]| ==> bars[s][i].bar.venue == "BINANCE_UM"
  }

  ghost predicate BarsGood(bars: map<Symbol, seq<BarRow>>, id: string) {
    FromVenue(bars) && forall s :: s in bars ==> s in UNIVERSE && BarsOk(id, s, bars[s]) && Contiguous(bars[s])
  }

  lemma RemovalShrinks<K, V>(m: map<K, V>, k: K)
    requires k in m
    ensures |m - {k}| < |m| && (m - {k})[k := m[k]] == m
  {
    assert (m - {k}).Keys == m.Keys - {k} && |m.Keys - {k}| < |m.Keys|;
  }

  lemma {:induction false} RebuildBars(id: string, bars: map<Symbol, seq<BarRow>>) returns (ops: seq<Op>)
    requires BarsGood(bars, id)
    ensures Sane(ops) && ApplyAll(NEW_TAPE, id, ops) == NEW_TAPE.(bars := bars)
    decreases |bars|
  {
    ops := [];
    if bars != map[] {
      var s :| s in bars;
      var rest := bars - {s};
      RemovalShrinks(bars, s);
      ops := RebuildBars(id, rest);
      var more := RebuildSymbol(NEW_TAPE.(bars := rest), id, s, bars[s], |bars[s]|);
      ApplyAppend(NEW_TAPE, id, ops, more);
      ops := ops + more;
      assert bars[s][..|bars[s]|] == bars[s];
    }
  }

  lemma {:induction false} ShaIsNew(id: string, rows: seq<FrameRow>, n: nat, k: nat)
    requires FramesOk(id, rows) && FrameColumns(id, rows) && k <= n < |rows|
    ensures FindSha(rows[..k], FrameLeaf(rows[n].frame)).None?
    decreases k
  {
    if k > 0 {
      assert FrameRowOk(id, rows, k - 1) && FrameRowOk(id, rows, n);
      assert rows[..k][..k - 1] == rows[..k - 1];
      ShaIsNew(id, rows, n, k - 1);
    }
  }

  lemma SequenceIsNew(id: string, rows: seq<FrameRow>, n: nat)
    requires FramesOk(id, rows) && FrameColumns(id, rows) && n < |rows|
    ensures FindSequence(rows[..n], n + 1).None?
  {
    forall i | 0 <= i < n
      ensures rows[i].columns.sequence == i + 1
    {
      assert FrameRowOk(id, rows, i);
    }
  }

  ghost predicate OnlyLastBlocks(rows: seq<FrameRow>) {
    forall i :: 0 <= i < |rows| - 1 ==> rows[i].frame.continuity == Admitted
  }

  /** The tape after its first `n` frames, before any seal. */
  ghost function Recorded(bars: map<Symbol, seq<BarRow>>, rows: seq<FrameRow>, n: nat): Tape
    requires n <= |rows|
  {
    Tape(if n > 0 && rows[n - 1].frame.continuity != Admitted then Blocked else Open, bars, rows[..n], n,
         FrameShaBefore(rows, n).1, None, None)
  }

  lemma NextFrame(bars: map<Symbol, seq<BarRow>>, id: string, rows: seq<FrameRow>, n: nat)
    requires FramesOk(id, rows) && FrameColumns(id, rows) && OnlyLastBlocks(rows) && n < |rows|
    ensures Apply(Recorded(bars, rows, n), id, RecordFrame(rows[n].frame, FrameLeaf(rows[n].frame))) == Recorded(bars, rows, n + 1)
  {
    var t := Recorded(bars, rows, n);
    assert FrameRowOk(id, rows, n);
    assert n > 0 ==> FrameRowOk(id, rows, n - 1);
    SequenceIsNew(id, rows, n);
    ShaIsNew(id, rows, n, n);
    ColumnsAreTheTape(id, t.frames, n, rows[n].frame.symbol);
    LastOfPrefix(t.frames, rows, n, rows[n].frame.symbol);
    assert FrameShaBefore(t.frames, n) == FrameShaBefore(rows, n);
    assert t.frames + [FrameRowFor(t.frames, rows[n].frame)] == rows[..n + 1];
  }

  lemma {:induction false} RebuildFrames(bars: map<Symbol, seq<BarRow>>, id: string, rows: seq<FrameRow>, n: nat) returns (ops: seq<Op>)
    requires FramesOk(id, rows) && FrameColumns(id, rows) && OnlyLastBlocks(rows) && n <= |rows|
    ensures Sane(ops) && ApplyAll(Recorded(bars, rows, 0), id, ops) == Recorded(bars, rows, n)
    decreases n
  {
    ops := [];
    if n > 0 {
      ops := RebuildFrames(bars, id, rows, n - 1);
      NextFrame(bars, id, rows, n - 1);
      ApplySnoc(Recorded(bars, rows, 0), id, ops, RecordFrame(rows[n - 1].frame, FrameLeaf(rows[n - 1].frame)));
      ops := ops + [RecordFrame(rows[n - 1].frame, FrameLeaf(rows[n - 1].frame))];
    }
  }

  ghost predicate Recordable(t: Tape, id: string) {
    Good(t, id) && FromVenue(t.bars) && (t.mode != Sealed ==> t.tapeSha.None? && t.seal.None?)
  }

  lemma AddBarKeepsVenue(t: Tape, id: string, bar: Bar, m: Sha)
    requires FromVenue(t.bars) && AddBar(t, id, bar, m).Ok?
    ensures FromVenue(AddBar(t, id, bar, m).value.tape.bars)
  {
    var rows := BarsOf(t, bar.symbol);
    var longer := rows + [BarRowFor(id, rows, bar)];
    assert forall i :: 0 <= i < |longer| ==> longer[i].bar.venue == "BINANCE_UM" || (i < |rows| && longer[i] == rows[i]);
  }

  lemma OpBasics(t: Tape, id: string, op: Op)
    requires FromVenue(t.bars) && (t.mode != Sealed ==> t.tapeSha.None? && t.seal.None?)
    ensures var u := Apply(t, id, op); FromVenue(u.bars) && (u.mode != Sealed ==> u.tapeSha.None? && u.seal.None?)
  {
    match op
    case RecordBar(bar, m) => if AddBar(t, id, bar, m).Ok? { AddBarKeepsVenue(t, id, bar, m); }
    case RecordFrame(_, _) =>
    case DoSeal(_, _) =>
  }

  lemma {:induction false} RecordingIsRecordable(t: Tape, id: string, ops: seq<Op>)
    requires Recordable(t, id) && Sane(ops)
    ensures Recordable(ApplyAll(t, id, ops), id)
    decreases |ops|
  {
    if ops != [] {
      ApplyKeepsGood(t, id, ops[0]);
      OpBasics(t, id, ops[0]);
      RecordingIsRecordable(Apply(t, id, ops[0]), id, ops[1..]);
    }
  }

  lemma Unsealed(t: Tape, id: string)
    requires Recordable(t, id)
    ensures var u := Recorded(t.bars, t.frames, |t.frames|);
            u.frames == t.frames && (if t.mode == Sealed then u.mode == Open && t == SealTape(u, id, t.seal.value.source, t.seal.value.sealedAt).value
                                     else u == t)
    ensures t.mode == Sealed ==>
              SealTape(Recorded(t.bars, t.frames, |t.frames|), id, t.seal.value.source, t.seal.value.sealedAt).Ok?
  {
    assert t.frames[..|t.frames|] == t.frames;
  }

  lemma RebuildRows(bars: map<Symbol, seq<BarRow>>, id: string, rows: seq<FrameRow>) returns (ops: seq<Op>)
    requires BarsGood(bars, id) && FramesOk(id, rows) && FrameColumns(id, rows) && OnlyLastBlocks(rows)
    ensures Sane(ops) && ApplyAll(NEW_TAPE, id, ops) == Recorded(bars, rows, |rows|)
  {
    ops := RebuildBars(id, bars);
    var more := RebuildFrames(bars, id, rows, |rows|);
    ApplyAppend(NEW_TAPE, id, ops, more);
    ops := ops + more;
    assert Recorded(bars, rows, 0) == NEW_TAPE.(bars := bars);
  }

  lemma Rebuild(t: Tape, id: string) returns (ops: seq<Op>)
    requires Recordable(t, id)
    ensures Sane(ops) && ApplyAll(NEW_TAPE, id, ops) == t
  {
    ops := RebuildRows(t.bars, id, t.frames);
    Unsealed(t, id);
    if t.mode == Sealed {
      var seal := t.seal.value;
      ApplySnoc(NEW_TAPE, id, ops, DoSeal(seal.source, seal.sealedAt));
      ops := ops + [DoSeal(seal.source, seal.sealedAt)];
    }
  }

  /** The tapes some sequence of recordings produces are exactly the recordable ones. */
  lemma ReachableIffRecordable(t: Tape, id: string)
    ensures (exists ops :: Sane(ops) && ApplyAll(NEW_TAPE, id, ops) == t) <==> Recordable(t, id)
  {
    if Recordable(t, id) {
      var ops := Rebuild(t, id);
    }
    forall ops | Sane(ops) && ApplyAll(NEW_TAPE, id, ops) == t
      ensures Recordable(t, id)
    {
      NewTapeIsGood(id);
      RecordingIsRecordable(NEW_TAPE, id, ops);
    }
  }
}
