/** SourceStateRepository: the ledger's tables as fields, and the reservation with the gap between
    its sum and its insert open to everybody else. */
module SourceRepository {
  import opened Common
  import opened SourceLedger

  /** A step another process can take while my reservation holds the lock of provider `p`. */
  predicate Foreign(s: Step, p: string) {
    match s case DoFinish(o) => o != p case Abort(o) => o != p case _ => true
  }

  predicate AllForeign(steps: seq<Step>, p: string) {
    forall i :: 0 <= i < |steps| ==> Foreign(steps[i], p)
  }

  lemma {:induction false} PendingSurvives(l: Ledger, steps: seq<Step>, p: string)
    requires AllForeign(steps, p) && p in l.pending
    ensures p in Run(l, steps).pending && Run(l, steps).pending[p] == l.pending[p]
    decreases |steps|
  {
    if steps != [] {
      PendingSurvives(Next(l, steps[0]), steps[1..], p);
    }
  }

  /** The part of a provider's spend that is final. */
  function CommittedSpend(rows: seq<Row>, n: nat, provider: string): (c: nat)
    requires n <= |rows|
  {
    if n == 0 then 0
    else
      var r := rows[n - 1];
      CommittedSpend(rows, n - 1, provider) + if Provider(r.key.source) == provider && r.status.Committed? then Cost(r) else 0
  }

  class SourceStateRepository {
    const campaignId: Option<string>
    var rows: seq<Row>
    var campaigns: map<string, Campaign>
    var pending: map<string, Pending>

    function View(): Ledger
      reads this
    {
      Ledger(rows, campaigns, pending)
    }

    ghost predicate Valid()
      reads this
    {
      LedgerOk(View())
    }

    constructor (campaignId: Option<string>)
      ensures Valid() && View() == Ledger([], map[], map[]) && this.campaignId == campaignId
    {
      this.campaignId := campaignId;
      rows, campaigns, pending := [], map[], map[];
    }

    method RegisterCampaign(source: string, c: Campaign) returns (e: Option<Error>)
      requires Valid()
      modifies this
      ensures Valid() && LedgerForward(old(View()), View()) && (View(), e) == Register(old(View()), source, c)
    {
      KeepsOrder(View(), DoRegister(source, c));
      var p := Provider(source);
      var ceiling := CapOf(p);
      if ceiling.None? || c.budget == 0 || c.budget > ceiling.value || c.historical > MAX_BIGINT || c.id != CAMPAIGN {
        return Some(Invalid);
      }
      if p in pending {
        return Some(Busy);
      }
      if p in campaigns {
        return if campaigns[p] != c then Some(Conflict) else None;
      }
      campaigns := campaigns[p := c];
      e := None;
    }

    /** The sums of the two budgets, as one pass over the table. */
    method Counted(q: Request) returns (limit: int, counted: int)
      ensures (limit, counted) == LimitFor(View(), q)
    {
      var p := Provider(q.key.source);
      var total, month := 0, 0;
      for n := 0 to |rows|
        invariant total == Spend(rows, n, p) && month == MonthSpend(rows, n, q.key.service, q.key.source, q.month)
      {
        var r := rows[n];
        if Provider(r.key.source) == p {
          total := total + Cost(r);
        }
        if r.key.service == q.key.service && r.key.source == q.key.source && r.month == q.month {
          month := month + Cost(r);
        }
      }
      if p in campaigns {
        limit := if q.monthlyBudget <= campaigns[p].budget then q.monthlyBudget else campaigns[p].budget;
        counted := total + campaigns[p].historical;
      } else {
        limit, counted := q.monthlyBudget, month;
      }
    }

    method BeginReservation(q: Request) returns (r: Result<Option<Row>, Error>)
      modifies this
      ensures (View(), r) == Begin(old(View()), q)
    {
      var p := Provider(q.key.source);
      var cost := q.units * q.unitCost;
      if q.units == 0 || cost > MAX_BIGINT {
        return Err(Invalid);
      }
      if p in pending {
        return Err(Busy);
      }
      if q.campaign.Some? && (p !in campaigns || campaigns[p].id != q.campaign.value) {
        return Err(AdoptionRequired);
      }
      var at := Find(rows, q.key);
      if at.Some? {
        var stored := rows[at.value];
        if (p !in campaigns && stored.month != q.month) || stored.units != q.units || stored.unitCost != q.unitCost {
          return Err(Conflict);
        }
        return Ok(Some(stored));
      }
      var limit, counted := Counted(q);
      if counted + cost > limit {
        return Err(BudgetExceeded);
      }
      pending := pending[p := Pending(Row(q.key, q.month, q.units, q.unitCost, Reserved), limit)];
      r := Ok(None);
    }

    /** `reserve_usage`; `meanwhile` is what others do between the sum and the insert, and `dies`
        says whether this process is lost before its commit. */
    method ReserveUsage(q: Request, meanwhile: seq<Step>, dies: bool) returns (r: Result<Row, Error>, ghost steps: seq<Step>)
      requires Valid() && AllForeign(meanwhile, Provider(q.key.source)) && q.campaign == campaignId
      modifies this
      ensures Valid() && View() == Run(old(View()), steps)
      ensures var b := Begin(old(View()), q).1;
              && (b.Err? ==> r == Err(b.error) && View() == old(View()))
              && (b.Ok? && b.value.Some? ==> r == Ok(b.value.value) && View() == old(View()))
              && (b.Ok? && b.value.None? && !dies ==> |rows| > 0 && r == Ok(rows[|rows| - 1]))
      ensures r.Ok? ==> r.value.key == q.key && r.value.units == q.units && r.value.unitCost == q.unitCost && r.value in rows
    {
      ghost var before := View();
      var p := Provider(q.key.source);
      BeginKeeps(before, q);
      var begun := BeginReservation(q);
      steps := [];
      if begun.Err? {
        return Err(begun.error), steps;
      }
      if begun.value.Some? {
        return Ok(begun.value.value), steps;
      }
      var row := pending[p].row;
      ghost var mid := View();
      Others(meanwhile);
      PendingSurvives(mid, meanwhile, p);
      steps := [DoBegin(q)] + meanwhile + [if dies then Abort(p) else DoFinish(p)];
      ThreeParts(before, DoBegin(q), meanwhile, if dies then Abort(p) else DoFinish(p));
      EndReservation(p, dies);
      r := if dies then Err(Unknown) else Ok(row);
    }

    /** The insert and its commit, or the end of a process that did not get there. */
    method EndReservation(p: string, dies: bool)
      requires Valid() && p in pending
      modifies this
      ensures Valid() && View() == Next(old(View()), if dies then Abort(p) else DoFinish(p))
      ensures rows == if dies then old(rows) else old(rows) + [old(pending)[p].row]
    {
      KeepsOrder(View(), if dies then Abort(p) else DoFinish(p));
      var row := pending[p].row;
      pending := pending - {p};
      if !dies {
        rows := rows + [row];
      }
    }

    static lemma {:induction false} ThreeParts(l: Ledger, a: Step, b: seq<Step>, c: Step)
      ensures Run(l, [a] + b + [c]) == Next(Run(Next(l, a), b), c)
    {
      assert ([a] + b + [c])[1..] == b + [c];
      RunSnoc(Next(l, a), b, c);
    }

    static lemma {:induction false} RunSnoc(l: Ledger, b: seq<Step>, c: Step)
      ensures Run(l, b + [c]) == Next(Run(l, b), c)
      decreases |b|
    {
      if b == [] {
        assert (b + [c])[1..] == [] && (b + [c])[0] == c;
        assert Run(l, b + [c]) == Run(Next(l, c), []);
      } else {
        assert (b + [c])[0] == b[0] && (b + [c])[1..] == b[1..] + [c];
        RunSnoc(Next(l, b[0]), b[1..], c);
      }
    }

    method Others(steps: seq<Step>)
      requires Valid()
      modifies this
      ensures Valid() && View() == Run(old(View()), steps)
    {
      ghost var before := View();
      var taken := 0;
      while taken < |steps|
        invariant 0 <= taken <= |steps|
        invariant Valid() && Run(View(), steps[taken..]) == Run(before, steps)
      {
        assert steps[taken..][1..] == steps[taken + 1..];
        Perform(steps[taken]);
        taken := taken + 1;
      }
    }

    method Perform(s: Step)
      requires Valid()
      modifies this
      ensures Valid() && View() == Next(old(View()), s)
    {
      KeepsOrder(View(), s);
      match s
      case DoRegister(source, c) => var _ := RegisterCampaign(source, c);
      case DoBegin(q) => var _ := BeginReservation(q);
      case DoFinish(p) =>
        if p in pending {
          rows, pending := rows + [pending[p].row], pending - {p};
        }
      case Abort(p) => pending := pending - {p};
      case DoCommit(key, actual) => var _ := CommitUsage(key, actual);
      case DoRelease(key) => var _ := ReleaseUsage(key);
    }

    method CommitUsage(key: Key, actual: nat) returns (r: Result<Row, Error>)
      requires Valid()
      modifies this
      ensures Valid() && LedgerForward(old(View()), View()) && (View(), r) == Commit(old(View()), key, actual)
    {
      CommitKeeps(View(), key, actual);
      var at := Find(rows, key);
      if at.None? {
        return Err(Unknown);
      }
      var row := rows[at.value];
      if actual > row.units {
        return Err(Invalid);
      }
      match row.status {
        case Released => return Err(Finalized);
        case Committed(units) => return if units != actual then Err(Conflict) else Ok(row);
        case Reserved =>
          row := row.(status := Committed(actual));
          rows := rows[at.value := row];
          r := Ok(row);
      }
    }

    method ReleaseUsage(key: Key) returns (r: Result<Row, Error>)
      requires Valid()
      modifies this
      ensures Valid() && LedgerForward(old(View()), View()) && (View(), r) == Release(old(View()), key)
    {
      ReleaseKeeps(View(), key);
      var at := Find(rows, key);
      if at.None? {
        return Err(Unknown);
      }
      var row := rows[at.value];
      match row.status {
        case Committed(_) => return Err(Finalized);
        case Released => return Ok(row);
        case Reserved =>
          row := row.(status := Released);
          rows := rows[at.value := row];
          r := Ok(row);
      }
    }

    /** `campaign_usage`: the three parts of the level. */
    method CampaignUsage(source: string) returns (r: Result<(nat, nat, nat), Error>)
      ensures var p := Provider(source);
              if p !in campaigns || (campaignId.Some? && campaigns[p].id != campaignId.value) then r == Err(AdoptionRequired)
              else r.Ok? && r.value.0 == campaigns[p].historical && r.value.0 + r.value.1 + r.value.2 == Level(View(), p)
                   && r.value.1 == CommittedSpend(rows, |rows|, p)
    {
      var p := Provider(source);
      if p !in campaigns || (campaignId.Some? && campaigns[p].id != campaignId.value) {
        return Err(AdoptionRequired);
      }
      var committed: nat, reserved: nat := 0, 0;
      for n := 0 to |rows|
        invariant committed + reserved == Spend(rows, n, p) && committed == CommittedSpend(rows, n, p)
      {
        var row := rows[n];
        if Provider(row.key.source) == p {
          match row.status {
            case Committed(_) => committed := committed + Cost(row);
            case Reserved => reserved := reserved + Cost(row);
            case Released =>
          }
        }
      }
      r := Ok((campaigns[p].historical, committed, reserved));
    }
  }
}
