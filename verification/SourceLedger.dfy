/** The paid-source ledger of source_state.py: reservations of API spend under a monthly budget,
    and the cumulative campaign cap that an operator adopts for a provider.

    A reservation holds its provider's advisory lock from the sum to the insert.  Commits and
    releases take only their row, so they may land in between; that is why the reservation is two
    steps here.  Money is whole micro-dollars. */
module SourceLedger {
  import opened Common

  const CAMPAIGN := "kairos-dev-qualification-v1"
  const MAX_BIGINT: int := 0x7FFF_FFFF_FFFF_FFFF

  /** `_provider_source`: the three spellings of X are one provider. */
  function Provider(source: string): string {
    if source == "x-api" || source == "x_api" then "x" else source
  }

  function CapOf(provider: string): (cap: Option<int>)
  {
    if provider == "openai" then Some(12_000_000)
    else if provider == "deepseek" then Some(1_000_000)
    else if provider == "x" then Some(2_000_000)
    else None
  }

  datatype Key = Key(service: string, source: string, id: string)

  datatype Status = Reserved | Committed(units: nat) | Released

  datatype Row = Row(key: Key, month: int, units: nat, unitCost: nat, status: Status)

  datatype Campaign = Campaign(id: string, budget: nat, historical: nat, evidence: string)

  /** A reservation between its sum and its insert, with the limit it was checked against. */
  datatype Pending = Pending(row: Row, limit: int)

  datatype Ledger = Ledger(rows: seq<Row>, campaigns: map<string, Campaign>, pending: map<string, Pending>)

  datatype Error = Invalid | Conflict | BudgetExceeded | AdoptionRequired | Unknown | Finalized | Busy

  function Cost(r: Row): (c: nat) {
    match r.status case Reserved => r.units * r.unitCost case Committed(n) => n * r.unitCost case Released => 0
  }

  /** The cost of a provider's rows among the first `n`, under every alias, service and month. */
  function Spend(rows: seq<Row>, n: nat, provider: string): (c: nat)
    requires n <= |rows|
  {
    if n == 0 then 0
    else Spend(rows, n - 1, provider) + if Provider(rows[n - 1].key.source) == provider then Cost(rows[n - 1]) else 0
  }

  /** The cost of one service's month on one source, as the monthly budget counts it. */
  function MonthSpend(rows: seq<Row>, n: nat, service: string, source: string, month: int): (c: nat)
    requires n <= |rows|
  {
    if n == 0 then 0
    else
      var r := rows[n - 1];
      MonthSpend(rows, n - 1, service, source, month)
      + if r.key.service == service && r.key.source == source && r.month == month then Cost(r) else 0
  }

  function Find(rows: seq<Row>, key: Key): (at: Option<nat>)
    ensures at.Some? ==> at.value < |rows| && rows[at.value].key == key
    ensures at.None? ==> forall i :: 0 <= i < |rows| ==> rows[i].key != key
  {
    if rows == [] then None
    else if rows[|rows| - 1].key == key then Some(|rows| - 1)
    else Find(rows[..|rows| - 1], key)
  }

  /** Historical plus ledger cost of an adopted provider. */
  function Level(l: Ledger, provider: string): int
    requires provider in l.campaigns
  {
    l.campaigns[provider].historical + Spend(l.rows, |l.rows|, provider)
  }

  // ---- The transactions -----------------------------------------------------------------

  /** `register_campaign`; it takes the provider lock. */
  function Register(l: Ledger, source: string, c: Campaign): (Ledger, Option<Error>) {
    var p := Provider(source);
    if CapOf(p).None? || c.budget == 0 || c.budget > CapOf(p).value || c.historical > MAX_BIGINT || c.id != CAMPAIGN
    then (l, Some(Invalid))
    else if p in l.pending then (l, Some(Busy))
    else if p in l.campaigns then (l, if l.campaigns[p] != c then Some(Conflict) else None)
    else (l.(campaigns := l.campaigns[p := c]), None)
  }

  datatype Request = Request(key: Key, month: int, units: nat, unitCost: nat, monthlyBudget: nat, campaign: Option<string>)

  /** The limit a new reservation must stay within, and what already counts against it. */
  function LimitFor(l: Ledger, q: Request): (int, int) {
    var p := Provider(q.key.source);
    if p in l.campaigns then
      (if q.monthlyBudget <= l.campaigns[p].budget then q.monthlyBudget else l.campaigns[p].budget, Level(l, p))
    else (q.monthlyBudget, MonthSpend(l.rows, |l.rows|, q.key.service, q.key.source, q.month))
  }

  /** `reserve_usage` up to and including its sum: a stored row, a refusal, or a pending insert. */
  function Begin(l: Ledger, q: Request): (Ledger, Result<Option<Row>, Error>) {
    var p := Provider(q.key.source);
    if q.units == 0 || q.units * q.unitCost > MAX_BIGINT then (l, Err(Invalid))
    else if p in l.pending then (l, Err(Busy))
    else if q.campaign.Some? && (p !in l.campaigns || l.campaigns[p].id != q.campaign.value) then (l, Err(AdoptionRequired))
    else
      var at := Find(l.rows, q.key);
      if at.Some? then
        var r := l.rows[at.value];
        (l, if (p !in l.campaigns && r.month != q.month) || r.units != q.units || r.unitCost != q.unitCost
            then Err(Conflict) else Ok(Some(r)))
      else
        var (limit, counted) := LimitFor(l, q);
        if counted + q.units * q.unitCost > limit then (l, Err(BudgetExceeded))
        else (l.(pending := l.pending[p := Pending(Row(q.key, q.month, q.units, q.unitCost, Reserved), limit)]), Ok(None))
  }

  /** The insert and commit of a pending reservation. */
  function Finish(l: Ledger, p: string): Ledger {
    if p !in l.pending then l else l.(rows := l.rows + [l.pending[p].row], pending := l.pending - {p})
  }

  /** `commit_usage`. */
  function Commit(l: Ledger, key: Key, actual: nat): (Ledger, Result<Row, Error>) {
    var at := Find(l.rows, key);
    if at.None? then (l, Err(Unknown))
    else
      var r := l.rows[at.value];
      if actual > r.units then (l, Err(Invalid))
      else if r.status.Released? then (l, Err(Finalized))
      else if r.status.Committed? then (l, if r.status.units != actual then Err(Conflict) else Ok(r))
      else var t := r.(status := Committed(actual)); (l.(rows := l.rows[at.value := t]), Ok(t))
  }

  /** `release_usage`. */
  function Release(l: Ledger, key: Key): (Ledger, Result<Row, Error>) {
    var at := Find(l.rows, key);
    if at.None? then (l, Err(Unknown))
    else
      var r := l.rows[at.value];
      if r.status.Committed? then (l, Err(Finalized))
      else if r.status.Released? then (l, Ok(r))
      else var t := r.(status := Released); (l.(rows := l.rows[at.value := t]), Ok(t))
  }

  datatype Step =
    | DoRegister(source: string, campaign: Campaign)
    | DoBegin(request: Request)
    | DoFinish(provider: string)
    | Abort(provider: string)
    | DoCommit(key: Key, actual: nat)
    | DoRelease(key: Key)

  function Next(l: Ledger, s: Step): Ledger {
    match s
    case DoRegister(source, c) => Register(l, source, c).0
    case DoBegin(q) => Begin(l, q).0
    case DoFinish(p) => Finish(l, p)
    case Abort(p) => l.(pending := l.pending - {p})
    case DoCommit(key, actual) => Commit(l, key, actual).0
    case DoRelease(key) => Release(l, key).0
  }

  function Run(l: Ledger, steps: seq<Step>): Ledger
    decreases |steps|
  {
    if steps == [] then l else Run(Next(l, steps[0]), steps[1..])
  }

  // ---- What the ledger keeps ------------------------------------------------------------

  ghost predicate RowOk(r: Row) {
    r.status.Committed? ==> r.status.units <= r.units
  }

  ghost predicate PendingOk(l: Ledger, p: string)
    requires p in l.pending
  {
    var w := l.pending[p];
    && Provider(w.row.key.source) == p && w.row.status == Reserved && Find(l.rows, w.row.key).None?
    && (if p in l.campaigns then Level(l, p) + Cost(w.row) <= w.limit <= l.campaigns[p].budget
        else MonthSpend(l.rows, |l.rows|, w.row.key.service, w.row.key.source, w.row.month) + Cost(w.row) <= w.limit)
  }

  ghost predicate LedgerOk(l: Ledger) {
    && (forall i :: 0 <= i < |l.rows| ==> RowOk(l.rows[i]))
    && (forall i, j :: 0 <= i < j < |l.rows| ==> l.rows[i].key != l.rows[j].key)
    && (forall p :: p in l.pending ==> PendingOk(l, p))
    && (forall p :: p in l.campaigns ==> CapOf(p).Some? && l.campaigns[p].budget <= CapOf(p).value)
  }

  /** What a stored row may become: it is finalised at most once, at no more than it reserved. */
  ghost predicate RowForward(a: Row, b: Row) {
    && b == a.(status := b.status) && (a.status != Reserved ==> b == a) && RowOk(b)
  }

  ghost predicate LedgerForward(l: Ledger, m: Ledger) {
    && |l.rows| <= |m.rows| && (forall i :: 0 <= i < |l.rows| ==> RowForward(l.rows[i], m.rows[i]))
    && forall p :: p in l.campaigns ==> p in m.campaigns && m.campaigns[p] == l.campaigns[p]
  }

  function Higher(a: int, b: int): int {
    if a >= b then a else b
  }

  lemma CostFalls(a: Row, b: Row)
    requires RowForward(a, b) && RowOk(a)
    ensures Cost(b) <= Cost(a)
  {
    if b.status.Committed? && a.status == Reserved {
      assert b.status.units * b.unitCost <= a.units * b.unitCost;
    }
  }

  lemma {:induction false} SpendFalls(a: seq<Row>, b: seq<Row>, n: nat, p: string)
    requires n <= |a| && n <= |b| && forall i :: 0 <= i < n ==> RowForward(a[i], b[i]) && RowOk(a[i])
    ensures Spend(b, n, p) <= Spend(a, n, p)
    decreases n
  {
    if n > 0 {
      CostFalls(a[n - 1], b[n - 1]);
      SpendFalls(a, b, n - 1, p);
    }
  }

  lemma {:induction false} MonthFalls(a: seq<Row>, b: seq<Row>, n: nat, service: string, source: string, month: int)
    requires n <= |a| && n <= |b| && forall i :: 0 <= i < n ==> RowForward(a[i], b[i]) && RowOk(a[i])
    ensures MonthSpend(b, n, service, source, month) <= MonthSpend(a, n, service, source, month)
    decreases n
  {
    if n > 0 {
      CostFalls(a[n - 1], b[n - 1]);
      MonthFalls(a, b, n - 1, service, source, month);
    }
  }

  lemma {:induction false} MonthPrefix(a: seq<Row>, b: seq<Row>, n: nat, service: string, source: string, month: int)
    requires n <= |a| && a <= b
    ensures MonthSpend(b, n, service, source, month) == MonthSpend(a, n, service, source, month)
    decreases n
  {
    if n > 0 {
      MonthPrefix(a, b, n - 1, service, source, month);
    }
  }

  lemma {:induction false} SpendPrefix(a: seq<Row>, b: seq<Row>, n: nat, p: string)
    requires n <= |a| && a <= b
    ensures Spend(b, n, p) == Spend(a, n, p)
    decreases n
  {
    if n > 0 {
      SpendPrefix(a, b, n - 1, p);
    }
  }

  /** A finalised row: everything about the ledger stays in order, and no level rises. */
  lemma Finalise(l: Ledger, at: nat, status: Status)
    requires LedgerOk(l) && at < |l.rows| && l.rows[at].status == Reserved
    requires status.Released? || (status.Committed? && status.units <= l.rows[at].units)
    ensures var m := l.(rows := l.rows[at := l.rows[at].(status := status)]);
            LedgerOk(m) && LedgerForward(l, m) && forall p :: p in l.campaigns ==> Level(m, p) <= Level(l, p)
  {
    var m := l.(rows := l.rows[at := l.rows[at].(status := status)]);
    forall p | p in l.campaigns
      ensures Level(m, p) <= Level(l, p)
    {
      SpendFalls(l.rows, m.rows, |l.rows|, p);
    }
    forall p | p in m.pending
      ensures PendingOk(m, p)
    {
      assert PendingOk(l, p);
      var w := l.pending[p].row;
      MonthFalls(l.rows, m.rows, |l.rows|, w.key.service, w.key.source, w.month);
    }
  }

  lemma CommitKeeps(l: Ledger, key: Key, actual: nat)
    requires LedgerOk(l)
    ensures var m := Commit(l, key, actual).0;
            LedgerOk(m) && LedgerForward(l, m) && forall p :: p in l.campaigns ==> Level(m, p) <= Level(l, p)
  {
    var at := Find(l.rows, key);
    if Commit(l, key, actual).0 != l {
      Finalise(l, at.value, Committed(actual));
    }
  }

  lemma ReleaseKeeps(l: Ledger, key: Key)
    requires LedgerOk(l)
    ensures var m := Release(l, key).0;
            LedgerOk(m) && LedgerForward(l, m) && forall p :: p in l.campaigns ==> Level(m, p) <= Level(l, p)
  {
    var at := Find(l.rows, key);
    if Release(l, key).0 != l {
      Finalise(l, at.value, Released);
    }
  }

  lemma BeginKeeps(l: Ledger, q: Request)
    requires LedgerOk(l)
    ensures LedgerOk(Begin(l, q).0) && LedgerForward(l, Begin(l, q).0)
  {
    var m := Begin(l, q).0;
    forall p | p in m.pending
      ensures PendingOk(m, p)
    {
      assert p in l.pending ==> PendingOk(l, p);
    }
  }

  lemma FinishKeeps(l: Ledger, p: string)
    requires LedgerOk(l)
    ensures LedgerOk(Finish(l, p)) && LedgerForward(l, Finish(l, p))
    ensures forall o :: o in l.campaigns ==>
              Level(Finish(l, p), o) <= if o == p && p in l.pending then l.campaigns[p].budget else Level(l, o)
  {
    if p in l.pending {
      var m := Finish(l, p);
      assert PendingOk(l, p);
      forall o | o in l.campaigns
        ensures Level(m, o) == Level(l, o) + if o == p then Cost(l.pending[p].row) else 0
      {
        SpendPrefix(l.rows, m.rows, |l.rows|, o);
      }
      forall o | o in m.pending
        ensures PendingOk(m, o)
      {
        assert PendingOk(l, o);
        var w := l.pending[o].row;
        MonthPrefix(l.rows, m.rows, |l.rows|, w.key.service, w.key.source, w.month);
      }
    }
  }

  /** When a reservation lands it still fits the limit it was checked against, whatever landed since
      its sum: the adopted cumulative cap, or its own service's month. */
  lemma InsertFitsItsLimit(l: Ledger, p: string)
    requires LedgerOk(l) && p in l.pending
    ensures var m, w := Finish(l, p), l.pending[p];
            if p in l.campaigns then Level(m, p) <= w.limit
            else MonthSpend(m.rows, |m.rows|, w.row.key.service, w.row.key.source, w.row.month) <= w.limit
  {
    var m, w := Finish(l, p), l.pending[p];
    assert PendingOk(l, p);
    SpendPrefix(l.rows, m.rows, |l.rows|, p);
    MonthPrefix(l.rows, m.rows, |l.rows|, w.row.key.service, w.row.key.source, w.row.month);
  }

  /** Adopted levels never exceed `ceiling`. */
  ghost predicate Capped(l: Ledger, p: string, ceiling: int) {
    p in l.campaigns && Level(l, p) <= Higher(ceiling, l.campaigns[p].budget)
  }

  lemma NextKeeps(l: Ledger, s: Step, p: string, ceiling: int)
    requires LedgerOk(l) && Capped(l, p, ceiling)
    ensures LedgerOk(Next(l, s)) && LedgerForward(l, Next(l, s)) && Capped(Next(l, s), p, ceiling)
  {
    KeepsOrder(l, s);
    match s
    case DoFinish(o) => FinishKeeps(l, o);
    case DoCommit(key, actual) => CommitKeeps(l, key, actual);
    case DoRelease(key) => ReleaseKeeps(l, key);
    case _ =>
  }

  lemma KeepsOrder(l: Ledger, s: Step)
    requires LedgerOk(l)
    ensures LedgerOk(Next(l, s)) && LedgerForward(l, Next(l, s))
  {
    match s
    case DoRegister(source, c) => RegisterKeeps(l, source, c);
    case DoBegin(q) => BeginKeeps(l, q);
    case DoFinish(p) => FinishKeeps(l, p);
    case Abort(p) => AbortKeeps(l, p);
    case DoCommit(key, actual) => CommitKeeps(l, key, actual);
    case DoRelease(key) => ReleaseKeeps(l, key);
  }

  lemma RegisterKeeps(l: Ledger, source: string, c: Campaign)
    requires LedgerOk(l)
    ensures LedgerOk(Register(l, source, c).0) && LedgerForward(l, Register(l, source, c).0)
  {
    var m := Register(l, source, c).0;
    forall p | p in m.pending
      ensures PendingOk(m, p)
    {
      assert PendingOk(l, p);
    }
  }

  lemma AbortKeeps(l: Ledger, p: string)
    requires LedgerOk(l)
    ensures LedgerOk(Next(l, Abort(p))) && LedgerForward(l, Next(l, Abort(p)))
  {
    var m := Next(l, Abort(p));
    forall o | o in m.pending
      ensures PendingOk(m, o)
    {
      assert PendingOk(l, o);
    }
  }

  lemma ForwardTrans(a: Ledger, b: Ledger, c: Ledger)
    requires LedgerForward(a, b) && LedgerForward(b, c)
    ensures LedgerForward(a, c)
  {
    forall i | 0 <= i < |a.rows|
      ensures RowForward(a.rows[i], c.rows[i])
    {
      assert RowForward(a.rows[i], b.rows[i]) && RowForward(b.rows[i], c.rows[i]);
    }
  }

  /** Rows are only added and finalised once; adoptions are never replaced. */
  lemma {:induction false} LedgerMovesForward(l: Ledger, steps: seq<Step>)
    requires LedgerOk(l)
    ensures LedgerOk(Run(l, steps)) && LedgerForward(l, Run(l, steps))
    decreases |steps|
  {
    if steps != [] {
      KeepsOrder(l, steps[0]);
      LedgerMovesForward(Next(l, steps[0]), steps[1..]);
      ForwardTrans(l, Next(l, steps[0]), Run(l, steps));
    }
  }

  /** From the moment a provider's campaign is adopted, historical, committed and reserved cost
      together never exceed the larger of the level at adoption and the adopted budget: under any
      alias, service and month, with commits and releases landing between a sum and its insert. */
  lemma {:induction false} CapHolds(l: Ledger, p: string, steps: seq<Step>)
    requires LedgerOk(l) && p in l.campaigns
    ensures var m := Run(l, steps); p in m.campaigns && Level(m, p) <= Higher(Level(l, p), l.campaigns[p].budget)
    decreases |steps|
  {
    CapHoldsUnder(l, p, steps, Level(l, p));
  }

  lemma {:induction false} CapHoldsUnder(l: Ledger, p: string, steps: seq<Step>, ceiling: int)
    requires LedgerOk(l) && Capped(l, p, ceiling)
    ensures Capped(Run(l, steps), p, ceiling) && Run(l, steps).campaigns[p] == l.campaigns[p]
    decreases |steps|
  {
    if steps != [] {
      NextKeeps(l, steps[0], p, ceiling);
      CapHoldsUnder(Next(l, steps[0]), p, steps[1..], ceiling);
    }
  }

  /** A stored row's place is found in every later ledger. */
  lemma FindLater(l: Ledger, m: Ledger, key: Key)
    requires LedgerOk(m) && LedgerForward(l, m) && Find(l.rows, key).Some?
    ensures Find(m.rows, key) == Find(l.rows, key)
  {
    var i := Find(l.rows, key).value;
    assert RowForward(l.rows[i], m.rows[i]);
  }

  /** Reserving again, after anything else has happened, changes nothing: it reports the stored row as
      it is by then if units and unit cost agree (and, without an adopted campaign, the month), and
      is a conflict otherwise. */
  lemma ReservingRepeats(l: Ledger, q: Request, steps: seq<Step>)
    requires LedgerOk(l) && Find(l.rows, q.key).Some?
    requires q.units > 0 && q.units * q.unitCost <= MAX_BIGINT
    requires var m, p := Run(l, steps), Provider(q.key.source);
             p !in m.pending && (q.campaign.Some? ==> p in m.campaigns && m.campaigns[p].id == q.campaign.value)
    ensures var m, i, p := Run(l, steps), Find(l.rows, q.key).value, Provider(q.key.source);
            && i < |m.rows| && RowForward(l.rows[i], m.rows[i])
            && var same := l.rows[i].units == q.units && l.rows[i].unitCost == q.unitCost && (p in m.campaigns || l.rows[i].month == q.month);
            && Begin(m, q) == (m, if same then Ok(Some(m.rows[i])) else Err(Conflict))
  {
    LedgerMovesForward(l, steps);
    FindLater(l, Run(l, steps), q.key);
  }

  /** Committing again, after anything else has happened, reports the same row and changes nothing;
      a committed row is never released. */
  lemma CommittingRepeats(l: Ledger, key: Key, actual: nat, steps: seq<Step>)
    requires LedgerOk(l) && Commit(l, key, actual).1.Ok?
    ensures var (m, r) := Commit(l, key, actual);
            var n := Run(m, steps);
            Commit(n, key, actual) == (n, r) && Release(n, key) == (n, Err(Finalized))
  {
    var m := Commit(l, key, actual).0;
    CommitKeeps(l, key, actual);
    LedgerMovesForward(m, steps);
    FindLater(l, m, key);
    FindLater(m, Run(m, steps), key);
  }

  /** Releasing again, after anything else has happened, reports the same row and changes nothing; a
      released row is never committed. */
  lemma ReleasingRepeats(l: Ledger, key: Key, actual: nat, steps: seq<Step>)
    requires LedgerOk(l) && Release(l, key).1.Ok?
    ensures var (m, r) := Release(l, key);
            var n := Run(m, steps);
            Release(n, key) == (n, r) && Commit(n, key, actual).0 == n && Commit(n, key, actual).1.Err?
  {
    var m := Release(l, key).0;
    ReleaseKeeps(l, key);
    LedgerMovesForward(m, steps);
    FindLater(l, m, key);
    FindLater(m, Run(m, steps), key);
  }
}
