/** The sliding-window admission of mutation_budget.py for venue accounts.

    Instants are integer milliseconds.  The database clock is assumed monotone, and a
    reservation's `occurred_at` default is stamped when it is inserted, at or after the clock
    reading its count used. */
module MutationBudget {
  import opened Common

  const MAX_CAPACITY := 30
  const MIN_WINDOW := 60000
  const MIN_RESERVE := 4

  datatype Scope = Scope(environment: string, account: string, exchange: string)

  datatype Config = Config(capacity: int, window: int, reserve: int)

  datatype Grant = Grant(effectId: string, operation: string, compensation: bool, at: int)

  datatype Reply = Granted(grant: Grant, replay: bool, remaining: int) | Denied(remaining: int)

  datatype Error = BadConfig | ConfigConflict | EffectReused

  predicate ConfigOk(c: Config) {
    0 < c.capacity <= MAX_CAPACITY && c.window >= MIN_WINDOW && MIN_RESERVE <= c.reserve < c.capacity
  }

  /** Grants `lo..hi` later than an instant; over the whole log, the `count(*)` of `_used`. */
  function Later(grants: seq<Grant>, lo: nat, hi: nat, since: int): nat
    requires lo <= hi <= |grants|
    decreases hi
  {
    if lo == hi then 0 else Later(grants, lo, hi - 1, since) + (if grants[hi - 1].at > since then 1 else 0)
  }

  /** Grants in the half-open window (since, upTo]. */
  function Within(grants: seq<Grant>, hi: nat, since: int, upTo: int): nat
    requires hi <= |grants|
  {
    if hi == 0 then 0 else Within(grants, hi - 1, since, upTo) + (if since < grants[hi - 1].at <= upTo then 1 else 0)
  }

  /** Compensating grants `lo..hi` later than an instant. */
  function Compensating(grants: seq<Grant>, lo: nat, hi: nat, since: int): nat
    requires lo <= hi <= |grants|
    decreases hi
  {
    if lo == hi then 0
    else Compensating(grants, lo, hi - 1, since) + (if grants[hi - 1].at > since && grants[hi - 1].compensation then 1 else 0)
  }

  function FindGrant(grants: seq<Grant>, effectId: string): Option<Grant> {
    if grants == [] then None
    else if grants[|grants| - 1].effectId == effectId then Some(grants[|grants| - 1])
    else FindGrant(grants[..|grants| - 1], effectId)
  }

  function Remaining(c: Config, grants: seq<Grant>, now: int): nat {
    var used := Later(grants, 0, |grants|, now - c.window);
    if c.capacity > used then c.capacity - used else 0
  }

  /** `reserve` on one scope whose configuration is settled: the clock reads `counted` for the
      count and stamps `inserted` on a new row. */
  function Admit(c: Config, grants: seq<Grant>, effectId: string, operation: string, compensation: bool,
                   counted: int, inserted: int): (seq<Grant>, Result<Reply, Error>)
  {
    match FindGrant(grants, effectId)
    case Some(g) =>
      if g.operation != operation || g.compensation != compensation then (grants, Err(EffectReused))
      else (grants, Ok(Granted(g, true, Remaining(c, grants, counted))))
    case None =>
      var free := Remaining(c, grants, counted);
      if free < (if compensation then 1 else c.reserve + 1) then (grants, Ok(Denied(free)))
      else
        var g := Grant(effectId, operation, compensation, inserted);
        (grants + [g], Ok(Granted(g, false, free - 1)))
  }

  /** What every prefix of the grant log satisfied when its last row was inserted. */
  ghost predicate Admitted(c: Config, grants: seq<Grant>) {
    && (forall i, j :: 0 <= i < j < |grants| ==> grants[i].at <= grants[j].at)
    && (forall i :: 0 <= i < |grants| ==> AdmittedAt(c, grants, i))
  }

  ghost predicate AdmittedAt(c: Config, grants: seq<Grant>, i: nat)
    requires i < |grants|
  {
    Later(grants, 0, i, grants[i].at - c.window)
    <= c.capacity - 1 - (if grants[i].compensation then 0 else c.reserve)
  }

  // ---- Counting -------------------------------------------------------------------------

  lemma {:induction false} LaterShrinks(grants: seq<Grant>, hi: nat, early: int, late: int)
    requires early <= late && hi <= |grants|
    ensures Later(grants, 0, hi, late) <= Later(grants, 0, hi, early)
  {
    if hi > 0 {
      LaterShrinks(grants, hi - 1, early, late);
    }
  }

  lemma {:induction false} LaterOfPrefix(grants: seq<Grant>, longer: seq<Grant>, hi: nat, since: int)
    requires grants <= longer && hi <= |grants|
    ensures Later(longer, 0, hi, since) == Later(grants, 0, hi, since)
  {
    if hi > 0 {
      LaterOfPrefix(grants, longer, hi - 1, since);
    }
  }

  lemma {:induction false} CountsSplit(grants: seq<Grant>, k: nat, hi: nat, since: int)
    requires k <= hi <= |grants|
    ensures Later(grants, 0, hi, since) == Later(grants, 0, k, since) + Later(grants, k, hi, since)
    ensures Compensating(grants, 0, hi, since) == Compensating(grants, 0, k, since) + Compensating(grants, k, hi, since)
  {
    if k < hi {
      CountsSplit(grants, k, hi - 1, since);
    }
  }

  lemma {:induction false} AllCompensating(grants: seq<Grant>, lo: nat, hi: nat, since: int)
    requires lo <= hi <= |grants| && forall i :: lo <= i < hi ==> grants[i].compensation
    ensures Compensating(grants, lo, hi, since) == Later(grants, lo, hi, since)
    decreases hi
  {
    if lo < hi {
      AllCompensating(grants, lo, hi - 1, since);
    }
  }

  lemma {:induction false} WithinIsLaterOfPrefix(grants: seq<Grant>, n: nat, hi: nat, since: int, upTo: int)
    requires n <= hi <= |grants|
    requires forall i :: 0 <= i < n ==> grants[i].at <= upTo
    requires forall i :: n <= i < hi ==> upTo < grants[i].at
    ensures Within(grants, hi, since, upTo) == Later(grants, 0, n, since)
    decreases hi
  {
    if n < hi {
      WithinIsLaterOfPrefix(grants, n, hi - 1, since, upTo);
    } else if hi > 0 {
      WithinIsLaterOfPrefix(grants, n - 1, hi - 1, since, upTo);
    }
  }

  // ---- What a reservation keeps ---------------------------------------------------------

  lemma AdmittedSnoc(c: Config, grants: seq<Grant>, g: Grant)
    requires Admitted(c, grants) && (forall i :: 0 <= i < |grants| ==> grants[i].at <= g.at)
    requires Later(grants, 0, |grants|, g.at - c.window) <= c.capacity - 1 - (if g.compensation then 0 else c.reserve)
    ensures Admitted(c, grants + [g])
  {
    var longer := grants + [g];
    forall i | 0 <= i < |longer|
      ensures AdmittedAt(c, longer, i)
    {
      LaterOfPrefix(grants, longer, i, longer[i].at - c.window);
      assert i < |grants| ==> AdmittedAt(c, grants, i);
    }
  }

  lemma ReserveKeepsAdmitted(c: Config, grants: seq<Grant>, effectId: string, operation: string, compensation: bool,
                             counted: int, inserted: int)
    requires ConfigOk(c) && Admitted(c, grants) && counted <= inserted
    requires forall i :: 0 <= i < |grants| ==> grants[i].at <= counted
    ensures Admitted(c, Admit(c, grants, effectId, operation, compensation, counted, inserted).0)
  {
    if Admit(c, grants, effectId, operation, compensation, counted, inserted).0 != grants {
      LaterShrinks(grants, |grants|, counted - c.window, inserted - c.window);
      AdmittedSnoc(c, grants, Grant(effectId, operation, compensation, inserted));
    }
  }

  /** The budget holds in every window, at every instant, not just when a grant is made: at most
      `capacity` grants lie in (t - window, t]. */
  lemma EveryWindowIsBounded(c: Config, grants: seq<Grant>, t: int)
    requires ConfigOk(c) && Admitted(c, grants)
    ensures Within(grants, |grants|, t - c.window, t) <= c.capacity
  {
    var n := |grants|;
    while n > 0 && grants[n - 1].at > t
      invariant 0 <= n <= |grants|
      invariant forall i :: n <= i < |grants| ==> t < grants[i].at
    {
      n := n - 1;
    }
    WithinIsLaterOfPrefix(grants, n, |grants|, t - c.window, t);
    if n > 0 {
      assert AdmittedAt(c, grants, n - 1);
      LaterShrinks(grants, n - 1, grants[n - 1].at - c.window, t - c.window);
    }
  }

  /** Ordinary grants can never eat the reserve: up to and including the last one of them, at
      most `capacity - reserve` grants lie in any window that ends later. */
  lemma OrdinaryLeavesReserve(c: Config, grants: seq<Grant>, k: nat, now: int)
    requires ConfigOk(c) && Admitted(c, grants) && k < |grants| && !grants[k].compensation && grants[k].at <= now
    ensures Later(grants, 0, k + 1, now - c.window) <= c.capacity - c.reserve
  {
    assert AdmittedAt(c, grants, k);
    LaterShrinks(grants, k, grants[k].at - c.window, now - c.window);
  }

  /** The compensation reserve is real: with fewer than `reserve` compensating grants in the
      current window, a new compensating request is granted whatever came before. */
  lemma CompensationIsAlwaysGranted(c: Config, grants: seq<Grant>, effectId: string, operation: string, counted: int, inserted: int)
    requires ConfigOk(c) && Admitted(c, grants) && FindGrant(grants, effectId).None?
    requires forall i :: 0 <= i < |grants| ==> grants[i].at <= counted
    requires Compensating(grants, 0, |grants|, counted - c.window) < c.reserve
    ensures var (grown, r) := Admit(c, grants, effectId, operation, true, counted, inserted);
            r.Ok? && r.value.Granted? && !r.value.replay && grown == grants + [r.value.grant]
  {
    var since := counted - c.window;
    var k := |grants|;
    while k > 0 && grants[k - 1].compensation
      invariant 0 <= k <= |grants|
      invariant forall i :: k <= i < |grants| ==> grants[i].compensation
    {
      k := k - 1;
    }
    CountsSplit(grants, k, |grants|, since);
    AllCompensating(grants, k, |grants|, since);
    if k > 0 {
      OrdinaryLeavesReserve(c, grants, k - 1, counted);
    }
  }

  // ---- Whole histories ------------------------------------------------------------------

  /** One request; the clock moves `tick` before its count and `lag` more before its insert. */
  datatype Request = Request(effectId: string, operation: string, compensation: bool, tick: nat, lag: nat)

  /** A scope's grants, the replies given so far, and the clock. */
  datatype History = History(grants: seq<Grant>, replies: seq<Result<Reply, Error>>, now: int)

  function ServeOne(c: Config, h: History, q: Request): History {
    var inserted := h.now + q.tick + q.lag;
    var (grown, r) := Admit(c, h.grants, q.effectId, q.operation, q.compensation, h.now + q.tick, inserted);
    History(grown, h.replies + [r], inserted)
  }

  /** Serve requests one after another on a fresh scope. */
  function Serve(c: Config, requests: seq<Request>, clock: int): History {
    if requests == [] then History([], [], clock)
    else ServeOne(c, Serve(c, requests[..|requests| - 1], clock), requests[|requests| - 1])
  }

  predicate IsNewGrant(r: Result<Reply, Error>) {
    r.Ok? && r.value.Granted? && !r.value.replay
  }

  function NewGrants(replies: seq<Result<Reply, Error>>): nat {
    if replies == [] then 0
    else NewGrants(replies[..|replies| - 1]) + if IsNewGrant(replies[|replies| - 1]) then 1 else 0
  }

  ghost predicate EffectsDistinct(grants: seq<Grant>) {
    forall i, j :: 0 <= i < j < |grants| ==> grants[i].effectId != grants[j].effectId
  }

  lemma {:induction false} FindGrantIff(grants: seq<Grant>, effectId: string)
    ensures FindGrant(grants, effectId).None? <==> forall i :: 0 <= i < |grants| ==> grants[i].effectId != effectId
    decreases |grants|
  {
    if grants != [] {
      FindGrantIff(grants[..|grants| - 1], effectId);
    }
  }

  ghost predicate HistoryOk(c: Config, h: History) {
    && Admitted(c, h.grants) && (forall i :: 0 <= i < |h.grants| ==> h.grants[i].at <= h.now)
    && EffectsDistinct(h.grants) && |h.grants| == NewGrants(h.replies)
  }

  lemma NewGrantsSnoc(replies: seq<Result<Reply, Error>>, r: Result<Reply, Error>)
    ensures NewGrants(replies + [r]) == NewGrants(replies) + if IsNewGrant(r) then 1 else 0
  {
    assert (replies + [r])[..|replies|] == replies;
  }

  /** A reservation appends one new effect and says so, or leaves the log alone. */
  lemma AdmitAppends(c: Config, grants: seq<Grant>, q: Request, counted: int, inserted: int)
    requires EffectsDistinct(grants)
    ensures var (grown, r) := Admit(c, grants, q.effectId, q.operation, q.compensation, counted, inserted);
            && EffectsDistinct(grown) && |grown| == |grants| + (if IsNewGrant(r) then 1 else 0)
            && (grown == grants || grown == grants + [Grant(q.effectId, q.operation, q.compensation, inserted)])
  {
    FindGrantIff(grants, q.effectId);
  }

  lemma OneMoreRequest(c: Config, h: History, q: Request)
    requires ConfigOk(c) && HistoryOk(c, h)
    ensures HistoryOk(c, ServeOne(c, h, q))
  {
    var counted, inserted := h.now + q.tick, h.now + q.tick + q.lag;
    ReserveKeepsAdmitted(c, h.grants, q.effectId, q.operation, q.compensation, counted, inserted);
    AdmitAppends(c, h.grants, q, counted, inserted);
    NewGrantsSnoc(h.replies, Admit(c, h.grants, q.effectId, q.operation, q.compensation, counted, inserted).1);
  }

  lemma {:induction false} HistoryStaysOk(c: Config, requests: seq<Request>, clock: int)
    requires ConfigOk(c)
    ensures HistoryOk(c, Serve(c, requests, clock))
    decreases |requests|
  {
    if requests != [] {
      HistoryStaysOk(c, requests[..|requests| - 1], clock);
      OneMoreRequest(c, Serve(c, requests[..|requests| - 1], clock), requests[|requests| - 1]);
    }
  }

  /** After any requests whatever: every window at every instant holds at most `capacity` grants,
      no effect holds two slots, and the slots used are exactly the new grants reported, so a replay
      never takes one. */
  lemma EveryHistoryIsBounded(c: Config, requests: seq<Request>, clock: int, t: int)
    requires ConfigOk(c)
    ensures var h := Serve(c, requests, clock);
            && Within(h.grants, |h.grants|, t - c.window, t) <= c.capacity
            && EffectsDistinct(h.grants) && |h.grants| == NewGrants(h.replies)
  {
    HistoryStaysOk(c, requests, clock);
    EveryWindowIsBounded(c, Serve(c, requests, clock).grants, t);
  }

  // ---- The repository -------------------------------------------------------------------

  /** A scope row with its reservations. */
  datatype Budget = Budget(config: Config, grants: seq<Grant>)

  ghost predicate BudgetOk(b: Budget, clock: int) {
    && ConfigOk(b.config) && Admitted(b.config, b.grants)
    && forall i :: 0 <= i < |b.grants| ==> b.grants[i].at <= clock
  }

  lemma BudgetStaysOk(b: Budget, effectId: string, operation: string, compensation: bool, counted: int, inserted: int)
    requires BudgetOk(b, counted) && counted <= inserted
    ensures BudgetOk(b.(grants := Admit(b.config, b.grants, effectId, operation, compensation, counted, inserted).0), inserted)
  {
    ReserveKeepsAdmitted(b.config, b.grants, effectId, operation, compensation, counted, inserted);
  }

  lemma BudgetAges(b: Budget, clock: int, later: int)
    requires BudgetOk(b, clock) && clock <= later
    ensures BudgetOk(b, later)
  {
  }

  class ExecutionMutationBudgetRepository {
    var budgets: map<Scope, Budget>
    var clock: int

    ghost predicate Valid()
      reads this
    {
      forall s :: s in budgets ==> BudgetOk(budgets[s], clock)
    }

    constructor (clock: int)
      ensures Valid() && budgets == map[] && this.clock == clock
    {
      budgets := map[];
      this.clock := clock;
    }

    /** `_used`: a scan of the scope's rows. */
    method Used(rows: seq<Grant>, window: int, now: int) returns (used: nat)
      ensures used == Later(rows, 0, |rows|, now - window)
    {
      used := 0;
      for i := 0 to |rows|
        invariant used == Later(rows, 0, i, now - window)
      {
        if rows[i].at > now - window {
          used := used + 1;
        }
      }
    }

    /** The transaction body once the scope's configuration is known to match. */
    method ReserveLocked(c: Config, rows: seq<Grant>, effectId: string, operation: string, compensation: bool,
                         counted: int, inserted: int) returns (grown: seq<Grant>, r: Result<Reply, Error>)
      ensures (grown, r) == Admit(c, rows, effectId, operation, compensation, counted, inserted)
    {
      grown := rows;
      var existing := FindGrant(rows, effectId);
      if existing.Some? {
        var g := existing.value;
        if g.operation != operation || g.compensation != compensation {
          return grown, Err(EffectReused);
        }
        var used := Used(rows, c.window, counted);
        return grown, Ok(Granted(g, true, if c.capacity > used then c.capacity - used else 0));
      }
      var used := Used(rows, c.window, counted);
      var free := if c.capacity > used then c.capacity - used else 0;
      if free < (if compensation then 1 else c.reserve + 1) {
        return grown, Ok(Denied(free));
      }
      var g := Grant(effectId, operation, compensation, inserted);
      grown := rows + [g];
      r := Ok(Granted(g, false, free - 1));
    }

    /** One reservation.  `tick` and `lag` are how far the clock moves before the count and
        between the count and the insert. */
    method Reserve(s: Scope, c: Config, effectId: string, operation: string, compensation: bool, tick: nat, lag: nat)
      returns (r: Result<Reply, Error>)
      requires Valid()
      modifies this
      ensures Valid() && clock == old(clock) + tick + lag
      ensures var known := s in old(budgets);
              if !ConfigOk(c) then r == Err(BadConfig) && budgets == old(budgets)
              else if known && old(budgets)[s].config != c then r == Err(ConfigConflict) && budgets == old(budgets)
              else
                var rows := if known then old(budgets)[s].grants else [];
                var (grown, reply) := Admit(c, rows, effectId, operation, compensation, old(clock) + tick, clock);
                r == reply && budgets == old(budgets)[s := Budget(c, grown)]
    {
      var counted := clock + tick;
      forall other | other in budgets
        ensures BudgetOk(budgets[other], counted) && BudgetOk(budgets[other], counted + lag)
      {
        BudgetAges(budgets[other], clock, counted);
        BudgetAges(budgets[other], clock, counted + lag);
      }
      clock := counted + lag;
      if !ConfigOk(c) {
        return Err(BadConfig);
      }
      if s in budgets && budgets[s].config != c {
        return Err(ConfigConflict);
      }
      if s !in budgets {
        budgets := budgets[s := Budget(c, [])];
      }
      var b := budgets[s];
      BudgetStaysOk(b, effectId, operation, compensation, counted, clock);
      var grown;
      grown, r := ReserveLocked(c, b.grants, effectId, operation, compensation, counted, clock);
      budgets := budgets[s := Budget(c, grown)];
    }
  }
}
