/** Replaying a transition against an old journal entry (`_validate_transition_replay`), and what
    the hash chain proves (`verify_chain`). */
module TradeReplay {
  import opened Common
  import opened TradeLifecycle

  /** The state the validator believes preceded entry `v`: an entry whose type is CREATED counts
      as the creation, any other carries its own figures. */
  function PriorFilled(e: Entry): real {
    if e.eventType == CREATED || e.payload.Created? then 0.0 else e.payload.filled
  }

  function PriorFirstFill(e: Entry): Option<int> {
    if e.eventType == CREATED || e.payload.Created? then None else e.payload.firstFill
  }

  function PriorIds(e: Entry): Ids {
    if e.eventType == CREATED || e.payload.Created? then map[] else e.payload.ids
  }

  /** `_validate_transition_replay`: does `req` name the transition journalled at version `v`? */
  predicate AcceptsReplay(j: seq<Entry>, v: nat, req: Request) {
    && 0 < v < |j|
    && var before := j[v - 1];
    && var e := j[v];
    && e.from == Some(before.to) && e.to == req.target && e.eventType == req.eventType
    && !(req.firstFill.Some? && PriorFirstFill(before).Some? && req.firstFill != PriorFirstFill(before))
    && Mergeable(PriorIds(before), req.ids)
    && PayloadOf(PriorFilled(before), PriorFirstFill(before), PriorIds(before), req) == e.payload
  }

  /** Entry `k` is a transition that took the creation's event type. */
  ghost predicate Mislabelled(j: seq<Entry>, k: nat) {
    0 < k < |j| && j[k].eventType == CREATED
  }

  /** The request supplies again everything recorded before it. */
  ghost predicate Resupplies(r: Trade, req: Request) {
    && (req.filled.Some? || r.filled == 0.0)
    && (r.firstFill.Some? ==> req.firstFill == r.firstFill)
    && (forall f :: f in r.ids ==> f in req.ids)
  }

  /** Soundness: whatever is accepted as a replay of entry `v` would, applied to the state that
      entry really followed, have produced exactly that entry. */
  lemma ReplayIsSound(t: NewTrade, j: seq<Entry>, v: nat, req: Request)
    requires Lawful(t, j) && AcceptsReplay(j, v, req)
    ensures Apply(StateAt(t, j, v - 1), req) == Ok(j[v])
  {
    var r := StateAt(t, j, v - 1);
    StatesAreOk(t, j, v - 1);
    assert FollowsAt(t, j, v);
    MoveProgresses(r, j[v]);
    PriorIsState(t, j, v - 1);
    if !Mislabelled(j, v - 1) {
      SamePayload(r, j[v], req);
    } else {
      assert req.ids == j[v].payload.ids;
      assert r.ids + req.ids == req.ids;
      SamePayload(r, j[v], req);
    }
  }

  /** Unless the previous entry is mislabelled, the validator reads off the true state. */
  lemma PriorIsState(t: NewTrade, j: seq<Entry>, k: nat)
    requires Lawful(t, j) && k < |j|
    ensures StateAt(t, j, k).state == j[k].to
    ensures var r := StateAt(t, j, k);
            if Mislabelled(j, k) then PriorFilled(j[k]) == 0.0 && PriorFirstFill(j[k]).None? && PriorIds(j[k]) == map[]
            else PriorFilled(j[k]) == r.filled && PriorFirstFill(j[k]) == r.firstFill && PriorIds(j[k]) == r.ids
  {
  }

  /** A request that asks for the payload an entry followed with is accepted like it. */
  lemma SamePayload(r: Trade, e: Entry, req: Request)
    requires RowOk(r) && Follows(r, e) && req.target == e.to && req.eventType == e.eventType
    requires PayloadOf(r.filled, r.firstFill, r.ids, req) == e.payload && Mergeable(r.ids, req.ids)
    requires !(req.firstFill.Some? && r.firstFill.Some? && req.firstFill != r.firstFill)
    ensures Apply(r, req) == Ok(e)
  {
  }

  /** Completeness, exactly: a request that did produce entry `v` is accepted as its replay if
      and only if the previous entry did not borrow the CREATED event type, or the request
      carried everything recorded before it. */
  lemma ReplayIsCompleteIff(t: NewTrade, j: seq<Entry>, v: nat, req: Request)
    requires Lawful(t, j) && 0 < v < |j| && Apply(StateAt(t, j, v - 1), req) == Ok(j[v])
    ensures AcceptsReplay(j, v, req) <==> !Mislabelled(j, v - 1) || Resupplies(StateAt(t, j, v - 1), req)
  {
    var r := StateAt(t, j, v - 1);
    StatesAreOk(t, j, v - 1);
    PriorIsState(t, j, v - 1);
    if Mislabelled(j, v - 1) {
      BlindReplay(r, j, v, req);
    } else {
      AcceptsIffPayload(r, j, v, req);
    }
  }

  /** Where the validator reads an empty state, the request has to carry what `r` records. */
  lemma BlindReplay(r: Trade, j: seq<Entry>, v: nat, req: Request)
    requires 0 < v < |j| && RowOk(r) && Apply(r, req) == Ok(j[v]) && r.state == j[v - 1].to
    requires PriorFilled(j[v - 1]) == 0.0 && PriorFirstFill(j[v - 1]).None? && PriorIds(j[v - 1]) == map[]
    ensures AcceptsReplay(j, v, req) <==> Resupplies(r, req)
  {
    AcceptsIffPayload(r, j, v, req);
    MislabelledReplay(r, req);
  }

  /** For the request that wrote entry `v`, only the payload comparison is left to decide. */
  lemma AcceptsIffPayload(r: Trade, j: seq<Entry>, v: nat, req: Request)
    requires 0 < v < |j| && Apply(r, req) == Ok(j[v]) && r.state == j[v - 1].to
    requires PriorIds(j[v - 1]) == map[] || PriorIds(j[v - 1]) == r.ids
    requires PriorFirstFill(j[v - 1]) == None || PriorFirstFill(j[v - 1]) == r.firstFill
    ensures AcceptsReplay(j, v, req) <==>
            PayloadOf(PriorFilled(j[v - 1]), PriorFirstFill(j[v - 1]), PriorIds(j[v - 1]), req)
            == PayloadOf(r.filled, r.firstFill, r.ids, req)
  {
  }

  /** Read from an empty state instead of `r`, the request yields the same payload exactly when
      it carries everything `r` records. */
  lemma MislabelledReplay(r: Trade, req: Request)
    requires RowOk(r) && Apply(r, req).Ok?
    ensures PayloadOf(0.0, None, map[], req) == PayloadOf(r.filled, r.firstFill, r.ids, req) <==> Resupplies(r, req)
  {
    var none: Ids := map[];
    assert none + req.ids == req.ids;
    if Resupplies(r, req) {
      assert r.ids + req.ids == req.ids;
    }
    if r.ids + req.ids == req.ids {
      forall f | f in r.ids
        ensures f in req.ids
      {
        assert f in r.ids + req.ids;
      }
    }
  }

  /** Replay decides exactly "this request produced that entry" when no caller reuses CREATED. */
  lemma ReplayIsExact(t: NewTrade, j: seq<Entry>, v: nat, req: Request)
    requires Lawful(t, j) && 0 < v < |j| && !Mislabelled(j, v - 1)
    ensures AcceptsReplay(j, v, req) <==> Apply(StateAt(t, j, v - 1), req) == Ok(j[v])
  {
    if AcceptsReplay(j, v, req) {
      ReplayIsSound(t, j, v, req);
    }
    if Apply(StateAt(t, j, v - 1), req) == Ok(j[v]) {
      ReplayIsCompleteIff(t, j, v, req);
    }
  }

  /** Later transitions do not change what a replay of an old one answers. */
  lemma ReplaySurvivesLaterEntries(j: seq<Entry>, longer: seq<Entry>, v: nat, req: Request)
    requires j <= longer && v < |j|
    ensures AcceptsReplay(longer, v, req) <==> AcceptsReplay(j, v, req)
  {
  }

  const SAMPLE := NewTrade("t", 1.0, 1000, "lineage")
  const PLACED := Request(EntryPending, CREATED, "placed", None, None, map[EntryExchangeId := "x1"])
  const POLLED := Request(EntryPending, "POLLED", "still open", None, None, map[])

  /** A caller that journals a transition under the event type CREATED cannot replay the next
      transition: the very request that produced entry 2 is refused. */
  lemma MislabelledReplayIsRefused()
    ensures var first := Apply(Opening(SAMPLE), PLACED);
            && first.Ok?
            && var second := Apply(Advance(Opening(SAMPLE), first.value), POLLED);
            && second.Ok?
            && var j := [CreationEntry(SAMPLE), first.value, second.value];
            && Lawful(SAMPLE, j) && Apply(StateAt(SAMPLE, j, 1), POLLED) == Ok(j[2]) && !AcceptsReplay(j, 2, POLLED)
  {
    var opening := Opening(SAMPLE);
    assert "x1"[0] == 'x' && 'x' in "x1";
    assert Refusal(opening, PLACED).None?;
    var first := Apply(opening, PLACED).value;
    var j1 := [CreationEntry(SAMPLE)];
    assert StateAt(SAMPLE, j1, 0) == opening;
    LawfulSnoc(SAMPLE, j1, PLACED);
    var r := Advance(opening, first);
    assert EntryExchangeId in r.ids;
    assert Refusal(r, POLLED).None?;
    var second := Apply(r, POLLED).value;
    assert j1 + [first] == [CreationEntry(SAMPLE), first];
    LawfulSnoc(SAMPLE, j1 + [first], POLLED);
    var j := [CreationEntry(SAMPLE), first, second];
    assert j == j1 + [first] + [second];
    StateOfPrefix(SAMPLE, j1 + [first], j, 1);
    ReplayIsCompleteIff(SAMPLE, j, 2, POLLED);
  }

  // ---- The hash chain -------------------------------------------------------------------

  /** `verify_chain`'s loop invariant as a definition: every entry's digest covers its fields and
      the digest before it. */
  ghost predicate ChainFrom(tradeId: string, j: seq<Entry>, previous: Option<Digest>)
    decreases |j|
  {
    j == [] || (&& j[0].previous == previous
                && j[0].sha == EventSha(tradeId, j[0].from, j[0].to, j[0].eventType, j[0].payload, previous)
                && ChainFrom(tradeId, j[1..], Some(j[0].sha)))
  }

  ghost predicate ChainVerifies(tradeId: string, j: seq<Entry>, head: Digest) {
    |j| > 0 && ChainFrom(tradeId, j, None) && j[|j| - 1].sha == head
  }

  lemma {:induction false} ChainAppend(tradeId: string, j: seq<Entry>, e: Entry, previous: Option<Digest>)
    ensures ChainFrom(tradeId, j + [e], previous) <==>
            ChainFrom(tradeId, j, previous)
            && var last := if j == [] then previous else Some(j[|j| - 1].sha);
               e.previous == last && e.sha == EventSha(tradeId, e.from, e.to, e.eventType, e.payload, last)
    decreases |j|
  {
    if j == [] {
      assert j + [e] == [e] && [e][1..] == [];
    } else {
      assert (j + [e])[0] == j[0] && (j + [e])[1..] == j[1..] + [e];
      ChainAppend(tradeId, j[1..], e, Some(j[0].sha));
    }
  }

  /** Every journal the writers produce verifies against the row's head. */
  lemma {:induction false} LawfulVerifies(t: NewTrade, j: seq<Entry>, k: nat)
    requires Lawful(t, j) && k < |j|
    ensures ChainVerifies(t.tradeId, j[..k + 1], StateAt(t, j, k).head)
  {
    StatesAreOk(t, j, k);
    assert j[..k + 1] == j[..k] + [j[k]];
    ChainAppend(t.tradeId, j[..k], j[k], None);
    if k == 0 {
      assert j[..0] == [];
    } else {
      LawfulVerifies(t, j, k - 1);
      StatesAreOk(t, j, k - 1);
      assert FollowsAt(t, j, k);
      assert j[..k][|j[..k]| - 1] == j[k - 1];
    }
  }

  /** The head commits to the whole journal: two journals that verify against one head are the
      same journal of the same trade, so no entry can be altered, dropped or reordered. */
  lemma {:induction false} HeadCommitsToJournal(a: string, j: seq<Entry>, b: string, k: seq<Entry>, head: Digest)
    requires ChainVerifies(a, j, head) && ChainVerifies(b, k, head)
    ensures a == b && j == k
    decreases |j|
  {
    var x, y := j[|j| - 1], k[|k| - 1];
    var js, ks := j[..|j| - 1], k[..|k| - 1];
    assert j == js + [x] && k == ks + [y];
    ChainAppend(a, js, x, None);
    ChainAppend(b, ks, y, None);
    assert x == y;
    if js != [] && ks != [] {
      HeadCommitsToJournal(a, js, b, ks, js[|js| - 1].sha);
    } else {
      assert js == [] && ks == [];
    }
  }

  /** `verify_chain`: one pass with a running previous digest. */
  method VerifyChain(tradeId: string, rows: seq<Entry>, head: Option<Digest>) returns (ok: bool)
    ensures ok <==> head.Some? && ChainVerifies(tradeId, rows, head.value)
  {
    var previous: Option<Digest> := None;
    var i := 0;
    while i < |rows|
      invariant 0 <= i <= |rows|
      invariant ChainFrom(tradeId, rows[..i], None)
      invariant previous == if i == 0 then None else Some(rows[i - 1].sha)
    {
      var row := rows[i];
      var expected := EventSha(tradeId, row.from, row.to, row.eventType, row.payload, previous);
      assert rows[..i + 1] == rows[..i] + [row];
      ChainAppend(tradeId, rows[..i], row, None);
      if row.previous != previous || row.sha != expected {
        BrokenPrefix(tradeId, rows, i + 1);
        return false;
      }
      previous := Some(expected);
      i := i + 1;
    }
    assert rows[..i] == rows;
    ok := head.Some? && |rows| > 0 && head == previous;
  }

  lemma {:induction false} BrokenPrefix(tradeId: string, j: seq<Entry>, n: nat)
    requires n <= |j| && !ChainFrom(tradeId, j[..n], None)
    ensures !ChainFrom(tradeId, j, None)
    decreases |j| - n
  {
    if n < |j| {
      assert j[..n + 1] == j[..n] + [j[n]];
      ChainAppend(tradeId, j[..n], j[n], None);
      BrokenPrefix(tradeId, j, n + 1);
    } else {
      assert j[..n] == j;
    }
  }
}
