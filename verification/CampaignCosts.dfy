/** The cost journal of research_campaign.py: `record_cost` and the cost summary `seal_denominator`
    takes of it.  Costs are whole micro-dollars.

    The table is kept in the order the summary reads it: by sample, arm and slot key.  A slot key is
    a stage and an attempt, and every dictionary of the summary looks at one stage, so the stages
    only need some fixed order among themselves. */
module CampaignCosts {
  import opened Common
  import opened CampaignClaims

  datatype Stage = Requested | Reserved | Denied | CommitRequested | Committed

  /** The operation a cost receipt belongs to. */
  datatype Operation = Operation(sample: string, arm: string, attempt: string)

  datatype CostRow = CostRow(op: Operation, stage: Stage, amount: nat, observedAt: int)

  datatype Error = Conflict

  // ---- The table ------------------------------------------------------------------------

  function StageRank(s: Stage): nat {
    match s case CommitRequested => 0 case Committed => 1 case Denied => 2 case Requested => 3 case Reserved => 4
  }

  /** ORDER BY sample_id, arm_id, slot_key. */
  predicate RowBefore(a: CostRow, b: CostRow) {
    || TextBefore(a.op.sample, b.op.sample)
    || (a.op.sample == b.op.sample && (
          || TextBefore(a.op.arm, b.op.arm)
          || (a.op.arm == b.op.arm && (
                || StageRank(a.stage) < StageRank(b.stage)
                || (a.stage == b.stage && TextBefore(a.op.attempt, b.op.attempt))))))
  }

  predicate SameSlot(a: CostRow, b: CostRow) {
    a.op == b.op && a.stage == b.stage
  }

  lemma RowsCompare(a: CostRow, b: CostRow)
    ensures RowBefore(a, b) || RowBefore(b, a) || SameSlot(a, b)
    ensures !(RowBefore(a, b) && RowBefore(b, a))
  {
    TextTotal(a.op.sample, b.op.sample);
    TextTotal(a.op.arm, b.op.arm);
    TextTotal(a.op.attempt, b.op.attempt);
  }

  lemma RowsTransitive(a: CostRow, b: CostRow, c: CostRow)
    requires RowBefore(a, b) && RowBefore(b, c)
    ensures RowBefore(a, c)
  {
    if TextBefore(a.op.sample, b.op.sample) && TextBefore(b.op.sample, c.op.sample) {
      TextTransitive(a.op.sample, b.op.sample, c.op.sample);
    }
    if TextBefore(a.op.arm, b.op.arm) && TextBefore(b.op.arm, c.op.arm) {
      TextTransitive(a.op.arm, b.op.arm, c.op.arm);
    }
    if TextBefore(a.op.attempt, b.op.attempt) && TextBefore(b.op.attempt, c.op.attempt) {
      TextTransitive(a.op.attempt, b.op.attempt, c.op.attempt);
    }
  }

  /** Where a new row goes. */
  function Rank(rows: seq<CostRow>, r: CostRow): (k: nat)
    ensures k <= |rows|
    ensures forall i :: k <= i < |rows| ==> RowBefore(r, rows[i])
    ensures k > 0 ==> !RowBefore(r, rows[k - 1])
  {
    if rows == [] || !RowBefore(r, rows[|rows| - 1]) then |rows| else Rank(rows[..|rows| - 1], r)
  }

  function Put(rows: seq<CostRow>, r: CostRow): seq<CostRow> {
    var k := Rank(rows, r); rows[..k] + [r] + rows[k..]
  }

  function Find(rows: seq<CostRow>, op: Operation, stage: Stage): (row: Option<CostRow>)
    ensures row.Some? ==> row.value in rows && row.value.op == op && row.value.stage == stage
    ensures row.None? ==> forall r :: r in rows ==> r.op != op || r.stage != stage
  {
    if rows == [] then None
    else if rows[|rows| - 1].op == op && rows[|rows| - 1].stage == stage then Some(rows[|rows| - 1])
    else Find(rows[..|rows| - 1], op, stage)
  }

  /** Is the receipt's stage justified by the receipts already stored? */
  predicate Fenced(rows: seq<CostRow>, r: CostRow) {
    match r.stage
    case Requested => true
    case Reserved =>
      var q := Find(rows, r.op, Requested);
      q.Some? && q.value.amount == r.amount && Find(rows, r.op, Denied).None?
    case Denied => Find(rows, r.op, Requested).Some? && r.amount == 0 && Find(rows, r.op, Reserved).None?
    case CommitRequested => var held := Find(rows, r.op, Reserved); held.Some? && r.amount <= held.value.amount
    case Committed =>
      var held := Find(rows, r.op, Reserved);
      var asked := Find(rows, r.op, CommitRequested);
      held.Some? && r.amount <= held.value.amount && asked.Some? && asked.value.amount == r.amount
  }

  /** `record_cost`.  After the denominator only late facts are stored, no new request. */
  function Record(rows: seq<CostRow>, r: CostRow, claimed: bool, sealed: bool, now: int): (seq<CostRow>, Result<bool, Error>) {
    if !claimed || !(0 <= now - r.observedAt <= 2_000) || !Fenced(rows, r) then (rows, Err(Conflict))
    else
      var stored := Find(rows, r.op, r.stage);
      if stored.Some? then (rows, if stored.value != r then Err(Conflict) else Ok(false))
      else if sealed && r.stage == Requested then (rows, Err(Conflict))
      else (Put(rows, r), Ok(true))
  }

  // ---- The summary ----------------------------------------------------------------------

  /** `{x.attempt_id: x.amount for x in rows if x.stage == stage}` over the first `n` rows. */
  function Collect(rows: seq<CostRow>, n: nat, stage: Stage): map<string, nat>
    requires n <= |rows|
  {
    if n == 0 then map[]
    else if rows[n - 1].stage == stage then Collect(rows, n - 1, stage)[rows[n - 1].op.attempt := rows[n - 1].amount]
    else Collect(rows, n - 1, stage)
  }

  /** The sum of a dictionary's values, in any order. */
  ghost function Total(m: map<string, nat>): nat
    decreases |m|
  {
    if m == map[] then 0 else var k :| k in m; Smaller(m, k); m[k] + Total(m - {k})
  }

  lemma Smaller(m: map<string, nat>, k: string)
    requires k in m
    ensures |m - {k}| < |m|
  {
    assert (m - {k}).Keys == m.Keys - {k} && |m.Keys - {k}| < |m.Keys|;
  }

  /** The costs of a campaign as its denominator reports them. */
  datatype Summary = Summary(committed: nat, outstanding: nat, unknownOperations: nat)

  function Without(m: map<string, nat>, gone: set<string>): map<string, nat> {
    map k | k in m && k !in gone :: m[k]
  }

  ghost function Summarise(rows: seq<CostRow>): Summary {
    var n := |rows|;
    var (requested, reserved, denied) := (Collect(rows, n, Requested), Collect(rows, n, Reserved), Collect(rows, n, Denied));
    var (asked, committed) := (Collect(rows, n, CommitRequested), Collect(rows, n, Committed));
    var uncertain := Without(requested, reserved.Keys + denied.Keys);
    Summary(Total(committed), Total(Without(reserved, committed.Keys)) + Total(uncertain),
            |uncertain| + |Without(asked, committed.Keys)|)
  }

  /** What one operation costs: what was committed if that is known, else what was requested. */
  function CostOf(rows: seq<CostRow>, request: CostRow): nat {
    var c := Find(rows, request.op, Committed);
    if c.Some? then c.value.amount else request.amount
  }

  /** Does row `i` open an operation that was not denied? */
  predicate Opens(rows: seq<CostRow>, i: nat)
    requires i < |rows|
  {
    rows[i].stage == Requested && Find(rows, rows[i].op, Denied).None?
  }

  /** The cost of every operation opened by the first `n` rows and not denied. */
  function NetCost(rows: seq<CostRow>, n: nat): nat
    requires n <= |rows|
  {
    if n == 0 then 0 else NetCost(rows, n - 1) + if Opens(rows, n - 1) then CostOf(rows, rows[n - 1]) else 0
  }

  // ---- What the journal keeps -----------------------------------------------------------

  ghost predicate Sorted(rows: seq<CostRow>) {
    forall i, j :: 0 <= i < j < |rows| ==> RowBefore(rows[i], rows[j])
  }

  ghost predicate RowsOk(rows: seq<CostRow>) {
    && (forall i, j :: 0 <= i < j < |rows| ==> !SameSlot(rows[i], rows[j]))
    && forall i :: 0 <= i < |rows| ==> Fenced(rows, rows[i])
  }

  lemma FindIsRow(rows: seq<CostRow>, r: CostRow)
    requires r in rows && forall i, j :: 0 <= i < j < |rows| ==> !SameSlot(rows[i], rows[j])
    ensures Find(rows, r.op, r.stage) == Some(r)
  {
    var found := Find(rows, r.op, r.stage);
    assert found.Some?;
    var i, j :| 0 <= i < |rows| && 0 <= j < |rows| && rows[i] == r && rows[j] == found.value;
    assert SameSlot(rows[i], rows[j]);
  }

  lemma PutMembers(rows: seq<CostRow>, r: CostRow)
    ensures forall x :: x in Put(rows, r) <==> x in rows || x == r
  {
    var k := Rank(rows, r);
    assert rows == rows[..k] + rows[k..];
    assert Put(rows, r)[k] == r;
  }

  lemma PutDistinct(rows: seq<CostRow>, r: CostRow)
    requires forall i, j :: 0 <= i < j < |rows| ==> !SameSlot(rows[i], rows[j])
    requires Find(rows, r.op, r.stage).None?
    ensures var more := Put(rows, r); forall i, j :: 0 <= i < j < |more| ==> !SameSlot(more[i], more[j])
  {
    var k := Rank(rows, r);
    var more := Put(rows, r);
    forall i | 0 <= i < |more|
      ensures more[i] == if i < k then rows[i] else if i == k then r else rows[i - 1]
    {
    }
  }

  /** Looking a slot up after an insert. */
  lemma FindPut(rows: seq<CostRow>, r: CostRow, op: Operation, stage: Stage)
    requires forall i, j :: 0 <= i < j < |rows| ==> !SameSlot(rows[i], rows[j])
    requires Find(rows, r.op, r.stage).None?
    ensures Find(Put(rows, r), op, stage) == if r.op == op && r.stage == stage then Some(r) else Find(rows, op, stage)
  {
    PutMembers(rows, r);
    PutDistinct(rows, r);
    var found := Find(rows, op, stage);
    if r.op == op && r.stage == stage {
      FindIsRow(Put(rows, r), r);
    } else if found.Some? {
      FindIsRow(Put(rows, r), found.value);
    }
  }

  /** A new fenced receipt leaves the stored ones justified. */
  lemma FencedPut(rows: seq<CostRow>, r: CostRow, x: CostRow)
    requires forall i, j :: 0 <= i < j < |rows| ==> !SameSlot(rows[i], rows[j])
    requires Fenced(rows, r) && Find(rows, r.op, r.stage).None? && Fenced(rows, x) && (x in rows || x == r)
    ensures Fenced(Put(rows, r), x)
  {
    FindPut(rows, r, x.op, Requested);
    FindPut(rows, r, x.op, Reserved);
    FindPut(rows, r, x.op, Denied);
    FindPut(rows, r, x.op, CommitRequested);
  }

  lemma PutIndex(rows: seq<CostRow>, r: CostRow)
    ensures var k, more := Rank(rows, r), Put(rows, r);
            |more| == |rows| + 1 && forall i :: 0 <= i < |more| ==> more[i] == if i < k then rows[i] else if i == k then r else rows[i - 1]
  {
  }

  lemma RankIsAfter(rows: seq<CostRow>, r: CostRow, i: nat)
    requires Sorted(rows) && Find(rows, r.op, r.stage).None? && i < Rank(rows, r)
    ensures RowBefore(rows[i], r)
  {
    var last := Rank(rows, r) - 1;
    RowsCompare(r, rows[last]);
    assert rows[last] in rows;
    if i < last {
      RowsTransitive(rows[i], rows[last], r);
    }
  }

  lemma PutSorted(rows: seq<CostRow>, r: CostRow)
    requires Sorted(rows) && Find(rows, r.op, r.stage).None?
    ensures Sorted(Put(rows, r))
  {
    PutIndex(rows, r);
    forall i | 0 <= i < Rank(rows, r)
      ensures RowBefore(rows[i], r)
    {
      RankIsAfter(rows, r, i);
    }
  }

  /** Every stored receipt stays justified, each slot is used once, and the order is kept. */
  lemma RecordKeepsRows(rows: seq<CostRow>, r: CostRow, claimed: bool, sealed: bool, now: int)
    requires RowsOk(rows) && Sorted(rows)
    ensures RowsOk(Record(rows, r, claimed, sealed, now).0) && Sorted(Record(rows, r, claimed, sealed, now).0)
  {
    if Record(rows, r, claimed, sealed, now).1 == Ok(true) {
      var more := Put(rows, r);
      PutDistinct(rows, r);
      PutSorted(rows, r);
      PutMembers(rows, r);
      forall i | 0 <= i < |more|
        ensures Fenced(more, more[i])
      {
        assert more[i] in rows || more[i] == r;
        FencedPut(rows, r, more[i]);
      }
    }
  }

  // ---- Sums of dictionaries -------------------------------------------------------------

  lemma {:induction false} TotalWithout(m: map<string, nat>, k: string)
    requires k in m
    ensures Total(m) == m[k] + Total(m - {k})
    decreases |m|
  {
    var p :| p in m && Total(m) == m[p] + Total(m - {p});
    if p != k {
      Smaller(m, p);
      Smaller(m, k);
      TotalWithout(m - {p}, k);
      TotalWithout(m - {k}, p);
      assert m - {p} - {k} == m - {k} - {p};
    }
  }

  lemma TotalInsert(m: map<string, nat>, k: string, v: nat)
    requires k !in m
    ensures Total(m[k := v]) == Total(m) + v
  {
    TotalWithout(m[k := v], k);
    assert m[k := v] - {k} == m;
  }

  /** Adding to an entry adds to the sum. */
  lemma TotalRaise(m: map<string, nat>, k: string, v: nat)
    ensures Total(m[k := Value(m, k) + v]) == Total(m) + v
  {
    var more := m[k := Value(m, k) + v];
    TotalWithout(more, k);
    if k in m {
      TotalWithout(m, k);
    }
    assert more - {k} == m - {k};
    assert k !in m ==> m - {k} == m;
  }

  /** A missing entry counts as nothing. */
  function Value(m: map<string, nat>, k: string): nat {
    if k in m then m[k] else 0
  }

  lemma {:induction false} TotalUnion(a: map<string, nat>, b: map<string, nat>)
    requires a.Keys !! b.Keys
    ensures Total(a + b) == Total(a) + Total(b)
    decreases |a|
  {
    if a == map[] {
      assert a + b == b;
    } else {
      var k :| k in a;
      Smaller(a, k);
      var rest := a - {k};
      TakeOut(a, b, k);
      TotalUnion(rest, b);
      TotalInsert(rest, k, a[k]);
      TotalInsert(rest + b, k, a[k]);
    }
  }

  lemma TakeOut(a: map<string, nat>, b: map<string, nat>, k: string)
    requires k in a && a.Keys !! b.Keys
    ensures var rest := a - {k};
            rest[k := a[k]] == a && (rest + b)[k := a[k]] == a + b && k !in rest + b && k !in rest && rest.Keys !! b.Keys
  {
  }

  /** Smaller values sum to less, and to the same only if they are the same. */
  lemma {:induction false} TotalCompare(a: map<string, nat>, b: map<string, nat>)
    requires a.Keys <= b.Keys && forall k :: k in b ==> Value(a, k) <= b[k]
    ensures Total(a) <= Total(b)
    ensures Total(a) == Total(b) <==> forall k :: k in b ==> Value(a, k) == b[k]
    decreases |b|
  {
    if b != map[] {
      var k :| k in b;
      Smaller(b, k);
      TotalCompare(a - {k}, b - {k});
      TotalWithout(b, k);
      if k in a {
        TotalWithout(a, k);
      } else {
        assert a - {k} == a;
      }
      assert forall o :: o in b && o != k ==> o in b - {k} && Value(a - {k}, o) == Value(a, o);
    }
  }
}
