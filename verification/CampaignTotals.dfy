/** What the cost summary of a campaign adds up to.

    The summary's dictionaries are keyed by attempt id alone, so of several operations that share an
    id one receipt speaks for all.  That never overstates the cost, and it is exact just when every
    operation with a cost is the one spoken for. */
module CampaignTotals {
  import opened Common
  import opened CampaignCosts

  // ---- The receipt that speaks for an attempt id ------------------------------------------

  /** The last receipt of a stage under an attempt id: the one its dictionary keeps. */
  function LastOf(rows: seq<CostRow>, n: nat, stage: Stage, a: string): (last: Option<CostRow>)
    requires n <= |rows|
    ensures last.Some? ==> last.value in rows && last.value.stage == stage && last.value.op.attempt == a
    ensures last.None? ==> forall i :: 0 <= i < n ==> rows[i].stage != stage || rows[i].op.attempt != a
  {
    if n == 0 then None
    else if rows[n - 1].stage == stage && rows[n - 1].op.attempt == a then Some(rows[n - 1])
    else LastOf(rows, n - 1, stage, a)
  }

  lemma {:induction false} CollectKeepsTheLast(rows: seq<CostRow>, n: nat, stage: Stage, a: string)
    requires n <= |rows|
    ensures var m, last := Collect(rows, n, stage), LastOf(rows, n, stage, a);
            (a in m <==> last.Some?) && (last.Some? ==> m[a] == last.value.amount)
    decreases n
  {
    if n > 0 {
      CollectKeepsTheLast(rows, n - 1, stage, a);
    }
  }

  /** A commitment speaks first, then a reservation; a mere request only if nothing under the id was
      denied. */
  function Speaker(rows: seq<CostRow>, a: string): (r: Option<CostRow>) {
    var n := |rows|;
    if LastOf(rows, n, Committed, a).Some? then LastOf(rows, n, Committed, a)
    else if LastOf(rows, n, Reserved, a).Some? then LastOf(rows, n, Reserved, a)
    else if LastOf(rows, n, Denied, a).Some? then None
    else LastOf(rows, n, Requested, a)
  }

  /** What the summary counts for an attempt id. */
  function Counted(rows: seq<CostRow>, a: string): nat {
    if Speaker(rows, a).Some? then Speaker(rows, a).value.amount else 0
  }

  /** The three dictionaries the summary sums, as one. */
  function Counts(rows: seq<CostRow>): map<string, nat> {
    var n := |rows|;
    var (requested, reserved, denied, committed) :=
      (Collect(rows, n, Requested), Collect(rows, n, Reserved), Collect(rows, n, Denied), Collect(rows, n, Committed));
    committed + Without(reserved, committed.Keys) + Without(requested, reserved.Keys + denied.Keys)
  }

  /** Every stage stands on the ones before it, under the same operation. */
  lemma Standing(rows: seq<CostRow>, r: CostRow) returns (request: nat)
    requires RowsOk(rows) && r in rows && (r.stage == Requested || r.stage == Reserved || r.stage == Committed)
    ensures request < |rows| && rows[request].stage == Requested && rows[request].op == r.op
    ensures r.stage == Committed ==> Find(rows, r.op, Reserved).Some?
    ensures r.stage != Requested ==> Find(rows, r.op, Denied).None?
    ensures r.stage == Reserved ==> rows[request].amount == r.amount
    ensures Find(rows, r.op, Requested) == Some(rows[request])
  {
    FindIsRow(rows, r);
    assert Fenced(rows, r);
    if r.stage == Committed {
      assert Fenced(rows, Find(rows, r.op, Reserved).value);
    }
    request :| 0 <= request < |rows| && rows[request] == Find(rows, r.op, Requested).value;
  }

  lemma CommittedIsReserved(rows: seq<CostRow>, a: string)
    requires RowsOk(rows) && LastOf(rows, |rows|, Committed, a).Some?
    ensures LastOf(rows, |rows|, Reserved, a).Some?
  {
    var c := LastOf(rows, |rows|, Committed, a).value;
    var _ := Standing(rows, c);
    assert Find(rows, c.op, Reserved).value in rows;
  }

  lemma CountsAreSpoken(rows: seq<CostRow>, a: string)
    requires RowsOk(rows)
    ensures (a in Counts(rows) <==> Speaker(rows, a).Some?) && Value(Counts(rows), a) == Counted(rows, a)
  {
    var n := |rows|;
    CollectKeepsTheLast(rows, n, Requested, a);
    CollectKeepsTheLast(rows, n, Reserved, a);
    CollectKeepsTheLast(rows, n, Denied, a);
    CollectKeepsTheLast(rows, n, Committed, a);
    if LastOf(rows, n, Committed, a).Some? {
      CommittedIsReserved(rows, a);
    }
  }

  lemma SummarySumsCounts(rows: seq<CostRow>)
    requires RowsOk(rows)
    ensures Summarise(rows).committed + Summarise(rows).outstanding == Total(Counts(rows))
  {
    var n := |rows|;
    var (requested, reserved, denied, committed) :=
      (Collect(rows, n, Requested), Collect(rows, n, Reserved), Collect(rows, n, Denied), Collect(rows, n, Committed));
    var held, uncertain := Without(reserved, committed.Keys), Without(requested, reserved.Keys + denied.Keys);
    forall a | a in committed
      ensures a in reserved
    {
      CollectKeepsTheLast(rows, n, Committed, a);
      CollectKeepsTheLast(rows, n, Reserved, a);
      CommittedIsReserved(rows, a);
    }
    TotalUnion(committed, held);
    TotalUnion(committed + held, uncertain);
  }

  /** Whoever speaks for an id belongs to an operation that was not denied, and names its cost. */
  lemma SpeakerIsOpen(rows: seq<CostRow>, a: string) returns (i: nat)
    requires RowsOk(rows) && Speaker(rows, a).Some?
    ensures i < |rows| && Opens(rows, i) && rows[i].op == Speaker(rows, a).value.op && rows[i].op.attempt == a
    ensures CostOf(rows, rows[i]) == Counted(rows, a)
  {
    var r := Speaker(rows, a).value;
    i := Standing(rows, r);
    FindIsRow(rows, r);
    var committed := Find(rows, r.op, Committed);
    assert committed.Some? ==> committed.value in rows;
    if r.stage == Requested {
      assert rows[i] == r;
    }
  }

  // ---- What is owed under an attempt id ---------------------------------------------------

  /** The cost of the opened operations of the first `n` rows, by attempt id. */
  function Owed(rows: seq<CostRow>, n: nat): map<string, nat>
    requires n <= |rows|
  {
    if n == 0 then map[]
    else
      var m, a := Owed(rows, n - 1), rows[n - 1].op.attempt;
      m[a := Value(m, a) + if Opens(rows, n - 1) then CostOf(rows, rows[n - 1]) else 0]
  }

  lemma {:induction false} OwedTotal(rows: seq<CostRow>, n: nat)
    requires n <= |rows|
    ensures Total(Owed(rows, n)) == NetCost(rows, n)
    decreases n
  {
    if n > 0 {
      OwedTotal(rows, n - 1);
      TotalRaise(Owed(rows, n - 1), rows[n - 1].op.attempt, if Opens(rows, n - 1) then CostOf(rows, rows[n - 1]) else 0);
    }
  }

  lemma {:induction false} OwedAtLeast(rows: seq<CostRow>, n: nat, i: nat)
    requires i < n <= |rows|
    ensures rows[i].op.attempt in Owed(rows, n)
    ensures Opens(rows, i) ==> Value(Owed(rows, n), rows[i].op.attempt) >= CostOf(rows, rows[i])
    decreases n
  {
    if i < n - 1 {
      OwedAtLeast(rows, n - 1, i);
    }
  }

  lemma {:induction false} OwedForBoth(rows: seq<CostRow>, n: nat, i: nat, j: nat)
    requires i < j < n <= |rows| && Opens(rows, i) && Opens(rows, j) && rows[i].op.attempt == rows[j].op.attempt
    ensures Value(Owed(rows, n), rows[i].op.attempt) >= CostOf(rows, rows[i]) + CostOf(rows, rows[j])
    decreases n
  {
    if j < n - 1 {
      OwedForBoth(rows, n - 1, i, j);
    } else {
      OwedAtLeast(rows, n - 1, i);
    }
  }

  /** Row `i` opens an operation of some cost under an attempt id. */
  predicate Costly(rows: seq<CostRow>, i: nat, a: string) {
    i < |rows| && Opens(rows, i) && rows[i].op.attempt == a && CostOf(rows, rows[i]) > 0
  }

  lemma {:induction false} OwedToOne(rows: seq<CostRow>, n: nat, a: string, only: Option<nat>)
    requires n <= |rows| && forall i: nat :: i < n && Costly(rows, i, a) ==> only == Some(i)
    requires only.Some? ==> only.value < |rows| && Opens(rows, only.value) && rows[only.value].op.attempt == a
    ensures Value(Owed(rows, n), a) == if only.Some? && only.value < n then CostOf(rows, rows[only.value]) else 0
    decreases n
  {
    if n > 0 {
      OwedToOne(rows, n - 1, a, only);
      assert Costly(rows, n - 1, a) ==> only == Some(n - 1);
    }
  }

  // ---- The theorem ----------------------------------------------------------------------

  /** The summary counts the attempt id of row `i` for row `i`'s own operation. */
  predicate SpokenFor(rows: seq<CostRow>, i: nat)
    requires i < |rows|
  {
    var r := Speaker(rows, rows[i].op.attempt); r.Some? && r.value.op == rows[i].op
  }

  lemma OneRowPerRequest(rows: seq<CostRow>, i: nat, j: nat)
    requires RowsOk(rows) && i < |rows| && j < |rows| && SameSlot(rows[i], rows[j])
    ensures i == j
  {
  }

  /** An attempt id is never counted for more than is owed under it, and for all of it exactly if
      every operation of some cost under it is spoken for. */
  lemma AttemptAddsUpIff(rows: seq<CostRow>, a: string)
    requires RowsOk(rows)
    ensures Counted(rows, a) <= Value(Owed(rows, |rows|), a)
    ensures Counted(rows, a) == Value(Owed(rows, |rows|), a) <==> forall j: nat :: Costly(rows, j, a) ==> SpokenFor(rows, j)
  {
    var n := |rows|;
    if Speaker(rows, a).Some? {
      var i := SpeakerIsOpen(rows, a);
      OwedAtLeast(rows, n, i);
      if j: nat :| Costly(rows, j, a) && j != i {
        if i < j { OwedForBoth(rows, n, i, j); } else { OwedForBoth(rows, n, j, i); }
        if SpokenFor(rows, j) {
          OneRowPerRequest(rows, i, j);
        }
      } else {
        OwedToOne(rows, n, a, Some(i));
      }
    } else if j: nat :| Costly(rows, j, a) {
      OwedAtLeast(rows, n, j);
    } else {
      OwedToOne(rows, n, a, None);
    }
  }

  ghost predicate AllSpokenFor(rows: seq<CostRow>) {
    forall i :: 0 <= i < |rows| && Opens(rows, i) && CostOf(rows, rows[i]) > 0 ==> SpokenFor(rows, i)
  }

  /** The summary never overstates what the requests cost, and states it exactly if and only if every
      operation that was not denied and costs anything is the one its attempt id is counted for. */
  lemma CostsAddUpIff(rows: seq<CostRow>)
    requires RowsOk(rows)
    ensures var sum := Summarise(rows).committed + Summarise(rows).outstanding;
            sum <= NetCost(rows, |rows|) && (sum == NetCost(rows, |rows|) <==> AllSpokenFor(rows))
  {
    var n := |rows|;
    var counts, owed := Counts(rows), Owed(rows, n);
    SummarySumsCounts(rows);
    OwedTotal(rows, n);
    forall a
      ensures a in counts ==> a in owed
      ensures Value(counts, a) <= Value(owed, a)
      ensures Value(counts, a) == Value(owed, a) <==> forall j: nat :: Costly(rows, j, a) ==> SpokenFor(rows, j)
    {
      CountsAreSpoken(rows, a);
      AttemptAddsUpIff(rows, a);
      if a in counts {
        var i := SpeakerIsOpen(rows, a);
        OwedAtLeast(rows, n, i);
      }
    }
    TotalCompare(counts, owed);
    SpokenForByAttempt(rows);
  }

  ghost predicate AttemptSpokenFor(rows: seq<CostRow>, a: string) {
    forall j: nat :: Costly(rows, j, a) ==> SpokenFor(rows, j)
  }

  lemma SpokenForByAttempt(rows: seq<CostRow>)
    ensures AllSpokenFor(rows) <==> forall a :: a in Owed(rows, |rows|) ==> AttemptSpokenFor(rows, a)
  {
    if forall a :: a in Owed(rows, |rows|) ==> AttemptSpokenFor(rows, a) {
      forall i | 0 <= i < |rows| && Opens(rows, i) && CostOf(rows, rows[i]) > 0
        ensures SpokenFor(rows, i)
      {
        OwedAtLeast(rows, |rows|, i);
        assert AttemptSpokenFor(rows, rows[i].op.attempt) && Costly(rows, i, rows[i].op.attempt);
      }
    }
  }

  // ---- When every operation costs something -----------------------------------------------

  ghost predicate EveryOperationCosts(rows: seq<CostRow>) {
    forall i :: 0 <= i < |rows| && Opens(rows, i) ==> CostOf(rows, rows[i]) > 0
  }

  /** Under each attempt id at most one operation was not denied. */
  ghost predicate OneOpenEach(rows: seq<CostRow>) {
    forall i, j :: 0 <= i < j < |rows| && Opens(rows, i) && Opens(rows, j) ==> rows[i].op.attempt != rows[j].op.attempt
  }

  predicate DeniedUnder(r: CostRow, a: string) {
    r.stage == Denied && r.op.attempt == a
  }

  /** An operation that was not denied is reserved wherever another under its attempt id was denied. */
  ghost predicate ReservedBesideDenied(rows: seq<CostRow>) {
    forall i, j :: 0 <= i < |rows| && 0 <= j < |rows| && Opens(rows, i) && DeniedUnder(rows[j], rows[i].op.attempt) ==>
      Find(rows, rows[i].op, Reserved).Some?
  }

  /** With one open operation per id, reserved where it must be, that operation is spoken for. */
  lemma TheOpenOneSpeaks(rows: seq<CostRow>, i: nat)
    requires RowsOk(rows) && OneOpenEach(rows) && ReservedBesideDenied(rows) && i < |rows| && Opens(rows, i)
    ensures SpokenFor(rows, i)
  {
    var n, a := |rows|, rows[i].op.attempt;
    var held := Find(rows, rows[i].op, Reserved);
    assert held.Some? ==> held.value in rows;
    assert LastOf(rows, n, Reserved, a).None? ==> held.None?;
    assert Speaker(rows, a).Some?;
    var j := SpeakerIsOpen(rows, a);
    assert i == j;
  }

  lemma SpokenForMeansAlone(rows: seq<CostRow>, i: nat, j: nat)
    requires RowsOk(rows) && i < |rows| && j < |rows| && rows[i].op.attempt == rows[j].op.attempt && Opens(rows, i) && SpokenFor(rows, i)
    ensures Opens(rows, j) && SpokenFor(rows, j) ==> i == j
    ensures rows[j].stage == Denied ==> Find(rows, rows[i].op, Reserved).Some?
  {
    var r := Speaker(rows, rows[i].op.attempt).value;
    var _ := Standing(rows, r);
    FindIsRow(rows, r);
    if Opens(rows, j) && SpokenFor(rows, j) {
      OneRowPerRequest(rows, i, j);
    }
  }

  /** If every operation that was not denied costs something, the summary is exact if and only if each
      attempt id has at most one such operation, reserved where another under the id was denied. */
  lemma CostlyOperationsAddUpIff(rows: seq<CostRow>)
    requires RowsOk(rows) && EveryOperationCosts(rows)
    ensures Summarise(rows).committed + Summarise(rows).outstanding == NetCost(rows, |rows|)
            <==> OneOpenEach(rows) && ReservedBesideDenied(rows)
  {
    CostsAddUpIff(rows);
    if OneOpenEach(rows) && ReservedBesideDenied(rows) {
      forall i | 0 <= i < |rows| && Opens(rows, i)
        ensures SpokenFor(rows, i)
      {
        TheOpenOneSpeaks(rows, i);
      }
    }
    if AllSpokenFor(rows) {
      forall i, j | 0 <= i < |rows| && 0 <= j < |rows| && Opens(rows, i) && rows[i].op.attempt == rows[j].op.attempt
        ensures i != j ==> !Opens(rows, j)
        ensures rows[j].stage == Denied ==> Find(rows, rows[i].op, Reserved).Some?
      {
        SpokenForMeansAlone(rows, i, j);
      }
    }
  }

  /** Attempt ids are not reused across samples or arms. */
  ghost predicate AttemptsDistinct(rows: seq<CostRow>) {
    forall i, j :: 0 <= i < j < |rows| && rows[i].op.attempt == rows[j].op.attempt ==> rows[i].op == rows[j].op
  }

  lemma OneOperationPerId(rows: seq<CostRow>, r: CostRow, i: nat)
    requires AttemptsDistinct(rows) && r in rows && i < |rows| && r.op.attempt == rows[i].op.attempt
    ensures r.op == rows[i].op
  {
  }

  lemma DistinctSpeakForThemselves(rows: seq<CostRow>, i: nat)
    requires RowsOk(rows) && AttemptsDistinct(rows) && i < |rows| && Opens(rows, i)
    ensures SpokenFor(rows, i)
  {
    var a := rows[i].op.attempt;
    forall r | r in rows && r.op.attempt == a
      ensures r.op == rows[i].op && r.stage != Denied
    {
      OneOperationPerId(rows, r, i);
    }
    assert LastOf(rows, |rows|, Denied, a).None?;
    assert LastOf(rows, |rows|, Requested, a).Some?;
  }

  /** Given attempt ids distinct across samples and arms, committed plus outstanding cost is the sum,
      over every request that was not denied, of what was committed or else of what was requested. */
  lemma CostsAddUp(rows: seq<CostRow>)
    requires RowsOk(rows) && AttemptsDistinct(rows)
    ensures Summarise(rows).committed + Summarise(rows).outstanding == NetCost(rows, |rows|)
  {
    CostsAddUpIff(rows);
    forall i | 0 <= i < |rows| && Opens(rows, i)
      ensures SpokenFor(rows, i)
    {
      DistinctSpeakForThemselves(rows, i);
    }
  }

  // ---- Shared attempt ids -----------------------------------------------------------------

  const ALONE := CostRow(Operation("s1", "arm", "a"), Requested, 5, 0)
  const OTHER := CostRow(Operation("s2", "arm", "a"), Requested, 7, 0)

  /** Two open operations that share an attempt id are counted once. */
  lemma SharedAttemptsAreMiscounted()
    ensures RowsOk([ALONE, OTHER]) && Summarise([ALONE, OTHER]).committed + Summarise([ALONE, OTHER]).outstanding < NetCost([ALONE, OTHER], 2)
  {
    var rows := [ALONE, OTHER];
    assert rows[0].op.sample != rows[1].op.sample;
    assert CostOf(rows, rows[0]) == 5 && CostOf(rows, rows[1]) == 7;
    assert Opens(rows, 0) && Opens(rows, 1);
    CostsAddUpIff(rows);
    CostlyOperationsAddUpIff(rows);
  }
}
