/** Attempts and outcomes of research_campaign.py: `start_attempt`, `finish_attempt`,
    `record_review` and `record_outcome`, for a plan without the causal extension.

    Every operation is one transaction under the campaign lock.  `recordedAt` is the database clock of
    an insert and `order` its place among all inserts.  The comparison of routes, models, prompts and
    cited evidence is the input `matched`. */
module CampaignAttempts {
  import opened Common

  datatype Arm = StrategyOnly | StrategyReview | LlmProposal

  datatype Slot = Slot(sample: string, arm: Arm)

  datatype Window = Window(market: int, pairedAt: int)

  datatype Start = Start(attempt: string, startedAt: int, body: string)

  datatype Ending = Completed | Failed | Unresolved

  datatype Terminal = Terminal(attempt: string, ending: Ending, observedAt: int, body: string)

  datatype Review = Review(attempt: string, action: string, observedAt: int, body: string)

  datatype Evaluation = Evaluation(evaluatedAt: int, hasIntent: bool)

  datatype Stored<T> = Stored(fact: T, recordedAt: int, order: nat)

  datatype Status =
    | Unknown | Late | Missed | SourceMissing | NoIntent | BudgetBlocked | CallFailed | Proposed | Baseline
    | EvaluatorFailed | Reviewed(action: string)

  datatype Decision = ByTerminal(terminal: Terminal) | ByReview(review: Review)

  /** `bundle` and `evaluation` link the frozen inputs of the window, `decision` the arm's completion. */
  datatype Outcome = Outcome(
    status: Status, attempt: Option<string>, bundle: Option<string>, evaluation: Option<Evaluation>,
    decision: Option<Decision>, observedAt: int)

  /** What the budget journal says of an arm that made no call. */
  datatype Budget = Budget(requested: bool, denied: bool)

  datatype Key = Key(slot: Slot, attempt: string)

  datatype Journal = Journal(
    skew: nat,
    windows: map<string, Window>,
    claims: map<string, int>,
    bundles: map<string, string>,
    evaluations: map<string, Evaluation>,
    budgets: map<Slot, Budget>,
    starts: map<Slot, Stored<Start>>,
    terminals: map<Key, Stored<Terminal>>,
    reviews: map<Key, Stored<Review>>,
    outcomes: map<Slot, Stored<Outcome>>,
    next: nat,
    sealed: bool)

  datatype Error = Conflict

  // ---- Attempts -------------------------------------------------------------------------

  /** `start_attempt`. */
  function StartAttempt(j: Journal, slot: Slot, s: Start, matched: bool, now: int): (Journal, Result<bool, Error>) {
    if slot.sample !in j.claims || slot.sample !in j.bundles || slot.sample !in j.windows then (j, Err(Conflict))
    else
      var w := j.windows[slot.sample];
      if !(w.market <= now < w.pairedAt) || Apart(now, s.startedAt) > j.skew || !matched then (j, Err(Conflict))
      else if slot in j.starts then (j, if j.starts[slot].fact != s then Err(Conflict) else Ok(false))
      else if j.sealed then (j, Err(Conflict))
      else (j.(starts := j.starts[slot := Stored(s, now, j.next)], next := j.next + 1), Ok(true))
  }

  function Apart(a: int, b: int): nat {
    if a <= b then b - a else a - b
  }

  /** `find_attempt` found this START: some arm's START carries the attempt id. */
  predicate Admitted(j: Journal, k: Key) {
    k.slot in j.starts && j.starts[k.slot].fact.attempt == k.attempt
  }

  /** `_response_clock`. */
  predicate ClockOk(j: Journal, slot: Slot, observedAt: int, now: int)
    requires slot in j.starts
  {
    && slot.sample in j.windows && j.windows[slot.sample].market <= now
    && j.starts[slot].fact.startedAt <= observedAt && Apart(now, observedAt) <= j.skew
  }

  /** `finish_attempt`. */
  function FinishAttempt(j: Journal, slot: Slot, t: Terminal, matched: bool, now: int): (Journal, Result<bool, Error>) {
    var k := Key(slot, t.attempt);
    if !Admitted(j, k) || t.observedAt < j.starts[slot].fact.startedAt || k in j.reviews then (j, Err(Conflict))
    else if k in j.terminals then (j, if j.terminals[k].fact != t then Err(Conflict) else Ok(false))
    else if !ClockOk(j, slot, t.observedAt, now) || !matched || (slot.arm != LlmProposal && t.ending == Completed) then (j, Err(Conflict))
    else (j.(terminals := j.terminals[k := Stored(t, now, j.next)], next := j.next + 1), Ok(true))
  }

  /** `record_review`. */
  function RecordReview(j: Journal, sample: string, r: Review, matched: bool, now: int): (Journal, Result<bool, Error>) {
    var slot := Slot(sample, StrategyReview);
    var k := Key(slot, r.attempt);
    if !Admitted(j, k) || k in j.terminals then (j, Err(Conflict))
    else if k in j.reviews then (j, if j.reviews[k].fact != r then Err(Conflict) else Ok(false))
    else if !ClockOk(j, slot, r.observedAt, now) || !matched || sample !in j.evaluations || !j.evaluations[sample].hasIntent
    then (j, Err(Conflict))
    else (j.(reviews := j.reviews[k := Stored(r, now, j.next)], next := j.next + 1), Ok(true))
  }

  // ---- Outcomes -------------------------------------------------------------------------

  /** The facts stored before place `before` about an arm's one attempt. */
  function TerminalBefore(j: Journal, k: Key, before: nat): (t: Option<Stored<Terminal>>)
    ensures t.Some? ==> k in j.terminals && j.terminals[k] == t.value
  {
    if k in j.terminals && j.terminals[k].order < before then Some(j.terminals[k]) else None
  }

  function ReviewBefore(j: Journal, k: Key, before: nat): (r: Option<Stored<Review>>)
    ensures r.Some? ==> k in j.reviews && j.reviews[k] == r.value
  {
    if k in j.reviews && j.reviews[k].order < before then Some(j.reviews[k]) else None
  }

  /** Was a completion seen or stored after the pairing cutoff? */
  predicate TooLate(observedAt: int, recordedAt: int, w: Window) {
    observedAt > w.pairedAt || recordedAt > w.pairedAt
  }

  /** The status an arm with a START must report, from what was stored before `before`. */
  function StatusFrom(j: Journal, k: Key, w: Window, before: nat): Status {
    var t, r := TerminalBefore(j, k, before), ReviewBefore(j, k, before);
    if r.Some? then if TooLate(r.value.fact.observedAt, r.value.recordedAt, w) then Late else Reviewed(r.value.fact.action)
    else if t.None? || t.value.fact.ending == Unresolved then Unknown
    else if TooLate(t.value.fact.observedAt, t.value.recordedAt, w) then Late
    else if t.value.fact.ending == Failed then CallFailed
    else Proposed
  }

  function DecisionFrom(j: Journal, k: Key, before: nat): Option<Decision> {
    var t, r := TerminalBefore(j, k, before), ReviewBefore(j, k, before);
    if r.Some? then Some(ByReview(r.value.fact)) else if t.Some? then Some(ByTerminal(t.value.fact)) else None
  }

  /** The statuses open to an arm without a START. */
  predicate NoCallOk(j: Journal, slot: Slot, w: Window, status: Status, now: int) {
    var e := slot.sample in j.evaluations;
    if e && j.evaluations[slot.sample].evaluatedAt > w.pairedAt then status == Late
    else if slot.arm == StrategyOnly && e then status == if j.evaluations[slot.sample].hasIntent then Baseline else NoIntent
    else if slot.arm == StrategyReview && e && !j.evaluations[slot.sample].hasIntent then status == NoIntent
    else
      match status
      case Unknown => slot in j.budgets && j.budgets[slot].requested && !j.budgets[slot].denied
      case SourceMissing => slot.sample !in j.bundles
      case EvaluatorFailed => true
      case Missed => now >= w.pairedAt
      case BudgetBlocked => e && now < w.pairedAt
      case _ => false
  }

  /** The inputs a window has frozen so far. */
  function BundleOf(j: Journal, sample: string): Option<string> {
    if sample in j.bundles then Some(j.bundles[sample]) else None
  }

  function EvaluationOf(j: Journal, sample: string): Option<Evaluation> {
    if sample in j.evaluations then Some(j.evaluations[sample]) else None
  }

  /** `record_outcome`. */
  function RecordOutcome(j: Journal, slot: Slot, o: Outcome, now: int): (Journal, Result<bool, Error>) {
    if slot.sample !in j.claims || slot.sample !in j.windows then (j, Err(Conflict))
    else if slot in j.outcomes then (j, if j.outcomes[slot].fact != o then Err(Conflict) else Ok(false))
    else if !(j.claims[slot.sample] <= o.observedAt <= now) then (j, Err(Conflict))
    else if o.bundle != BundleOf(j, slot.sample) || o.evaluation != EvaluationOf(j, slot.sample) then (j, Err(Conflict))
    else
      var w := j.windows[slot.sample];
      var allowed :=
        if slot in j.starts then
          var k := Key(slot, j.starts[slot].fact.attempt);
          && o.attempt == Some(k.attempt) && !(k in j.terminals && k in j.reviews)
          && o.status == StatusFrom(j, k, w, j.next) && o.decision == DecisionFrom(j, k, j.next)
        else o.attempt.None? && o.decision.None? && NoCallOk(j, slot, w, o.status, now);
      if !allowed || j.sealed then (j, Err(Conflict))
      else (j.(outcomes := j.outcomes[slot := Stored(o, now, j.next)], next := j.next + 1), Ok(true))
  }

  /** Every scheduled window and arm. */
  function Expected(j: Journal): set<Slot> {
    set sample, arm: Arm | sample in j.windows :: Slot(sample, arm)
  }

  /** The gate of `seal_denominator`. */
  function Seal(j: Journal): (Journal, Result<nat, Error>) {
    if j.outcomes.Keys != Expected(j) then (j, Err(Conflict)) else (j.(sealed := true), Ok(|j.outcomes|))
  }

  /** The inputs other methods store, each of them once. */
  function TakeClaim(j: Journal, sample: string, at: int): Journal {
    if sample in j.claims || j.sealed then j else j.(claims := j.claims[sample := at])
  }

  function FreezeBundle(j: Journal, sample: string, content: string): Journal {
    if sample in j.bundles || j.sealed then j else j.(bundles := j.bundles[sample := content])
  }

  function SaveEvaluation(j: Journal, sample: string, e: Evaluation): Journal {
    if sample in j.evaluations || j.sealed then j else j.(evaluations := j.evaluations[sample := e])
  }

  datatype Op =
    | DoClaim(sample: string, at: int)
    | DoBundle(bundled: string, content: string)
    | DoEvaluate(evaluated: string, evaluation: Evaluation)
    | DoBudget(spender: Slot, budget: Budget)
    | DoStart(slot: Slot, start: Start, matched: bool, now: int)
    | DoFinish(finished: Slot, terminal: Terminal, finishMatched: bool, finishedAt: int)
    | DoReview(reviewed: string, review: Review, reviewMatched: bool, reviewedAt: int)
    | DoOutcome(of: Slot, outcome: Outcome, decidedAt: int)
    | DoSeal

  function Next(j: Journal, op: Op): Journal {
    match op
    case DoClaim(sample, at) => TakeClaim(j, sample, at)
    case DoBundle(sample, content) => FreezeBundle(j, sample, content)
    case DoEvaluate(sample, e) => SaveEvaluation(j, sample, e)
    case DoBudget(slot, b) => j.(budgets := j.budgets[slot := b])
    case DoStart(slot, s, matched, now) => StartAttempt(j, slot, s, matched, now).0
    case DoFinish(slot, t, matched, now) => FinishAttempt(j, slot, t, matched, now).0
    case DoReview(sample, r, matched, now) => RecordReview(j, sample, r, matched, now).0
    case DoOutcome(slot, o, now) => RecordOutcome(j, slot, o, now).0
    case DoSeal => Seal(j).0
  }

  function Run(j: Journal, ops: seq<Op>): Journal
    decreases |ops|
  {
    if ops == [] then j else Run(Next(j, ops[0]), ops[1..])
  }

  ghost predicate Initial(j: Journal) {
    j.starts == map[] && j.terminals == map[] && j.reviews == map[] && j.outcomes == map[] && !j.sealed
  }

  // ---- What every run keeps -------------------------------------------------------------

  /** An outcome says what the arm's history said when it was recorded. */
  ghost predicate OutcomeOk(j: Journal, slot: Slot)
    requires slot in j.outcomes
  {
    var o := j.outcomes[slot];
    && slot.sample in j.windows && slot.sample in j.claims && o.order < j.next
    && (o.fact.bundle.Some? ==> o.fact.bundle == BundleOf(j, slot.sample))
    && (o.fact.evaluation.Some? ==> o.fact.evaluation == EvaluationOf(j, slot.sample))
    && (o.fact.attempt.Some? <==> slot in j.starts && j.starts[slot].order < o.order)
    && (o.fact.attempt.Some? ==>
          var k := Key(slot, o.fact.attempt.value);
          && Admitted(j, k)
          && o.fact.status == StatusFrom(j, k, j.windows[slot.sample], o.order)
          && o.fact.decision == DecisionFrom(j, k, o.order))
  }

  ghost predicate FactsOk(j: Journal) {
    && (forall k :: k in j.terminals ==> Admitted(j, k) && k !in j.reviews && j.terminals[k].order < j.next)
    && (forall k :: k in j.reviews ==> Admitted(j, k) && k.slot.arm == StrategyReview && j.reviews[k].order < j.next)
    && (forall k :: k in j.terminals && j.terminals[k].fact.ending == Completed ==> k.slot.arm == LlmProposal)
    && (forall slot :: slot in j.starts ==> j.starts[slot].order < j.next)
  }

  ghost predicate OutcomesOk(j: Journal) {
    forall slot :: slot in j.outcomes ==> OutcomeOk(j, slot)
  }

  ghost predicate JournalOk(j: Journal) {
    FactsOk(j) && OutcomesOk(j) && (j.sealed ==> j.outcomes.Keys == Expected(j))
  }

  /** A START stored later leaves the outcomes before it as they were. */
  lemma AddStart(j: Journal, slot: Slot, row: Stored<Start>)
    requires JournalOk(j) && slot !in j.starts && row.order == j.next
    ensures JournalOk(j.(starts := j.starts[slot := row], next := j.next + 1))
  {
    var u := j.(starts := j.starts[slot := row], next := j.next + 1);
    forall o | o in u.outcomes
      ensures OutcomeOk(u, o)
    {
      assert OutcomeOk(j, o);
    }
    assert Expected(u) == Expected(j);
  }

  lemma StartKeeps(j: Journal, slot: Slot, s: Start, matched: bool, now: int)
    requires JournalOk(j)
    ensures JournalOk(StartAttempt(j, slot, s, matched, now).0)
  {
    var (u, kept) := StartAttempt(j, slot, s, matched, now);
    if kept == Ok(true) {
      AddStart(j, slot, Stored(s, now, j.next));
    } else {
      assert u == j;
    }
  }

  /** Claims, bundles and evaluations are only added. */
  ghost predicate InputsKept(j: Journal, u: Journal) {
    && (forall sample :: sample in j.claims ==> sample in u.claims)
    && (forall sample :: sample in j.bundles ==> sample in u.bundles && u.bundles[sample] == j.bundles[sample])
    && (forall sample :: sample in j.evaluations ==> sample in u.evaluations && u.evaluations[sample] == j.evaluations[sample])
  }

  /** A fact stored later does not change what was visible before. */
  lemma LaterFactsAreInvisible(j: Journal, u: Journal)
    requires FactsOk(j) && OutcomesOk(j) && u.windows == j.windows && u.starts == j.starts && u.outcomes == j.outcomes && u.next >= j.next
    requires InputsKept(j, u)
    requires forall k :: k in j.terminals ==> k in u.terminals && u.terminals[k] == j.terminals[k]
    requires forall k :: k in j.reviews ==> k in u.reviews && u.reviews[k] == j.reviews[k]
    requires forall k :: k in u.terminals && k !in j.terminals ==> u.terminals[k].order >= j.next
    requires forall k :: k in u.reviews && k !in j.reviews ==> u.reviews[k].order >= j.next
    ensures OutcomesOk(u)
  {
    forall slot | slot in u.outcomes
      ensures OutcomeOk(u, slot)
    {
      assert OutcomeOk(j, slot);
      var o := j.outcomes[slot];
      if o.fact.attempt.Some? {
        var k := Key(slot, o.fact.attempt.value);
        assert TerminalBefore(u, k, o.order) == TerminalBefore(j, k, o.order);
        assert ReviewBefore(u, k, o.order) == ReviewBefore(j, k, o.order);
      }
    }
  }

  lemma AddTerminal(j: Journal, k: Key, t: Stored<Terminal>)
    requires JournalOk(j) && Admitted(j, k) && k !in j.terminals && k !in j.reviews && t.order == j.next
    requires t.fact.ending == Completed ==> k.slot.arm == LlmProposal
    ensures JournalOk(j.(terminals := j.terminals[k := t], next := j.next + 1))
  {
    var u := j.(terminals := j.terminals[k := t], next := j.next + 1);
    LaterFactsAreInvisible(j, u);
    assert Expected(u) == Expected(j);
  }

  lemma FinishKeeps(j: Journal, slot: Slot, t: Terminal, matched: bool, now: int)
    requires JournalOk(j)
    ensures JournalOk(FinishAttempt(j, slot, t, matched, now).0)
  {
    var (u, kept) := FinishAttempt(j, slot, t, matched, now);
    if kept == Ok(true) {
      AddTerminal(j, Key(slot, t.attempt), Stored(t, now, j.next));
    } else {
      assert u == j;
    }
  }

  lemma AddReview(j: Journal, k: Key, r: Stored<Review>)
    requires JournalOk(j) && Admitted(j, k) && k !in j.terminals && k !in j.reviews && k.slot.arm == StrategyReview && r.order == j.next
    ensures JournalOk(j.(reviews := j.reviews[k := r], next := j.next + 1))
  {
    var u := j.(reviews := j.reviews[k := r], next := j.next + 1);
    LaterFactsAreInvisible(j, u);
    assert Expected(u) == Expected(j);
  }

  lemma ReviewShape(j: Journal, sample: string, r: Review, matched: bool, now: int)
    ensures var k := Key(Slot(sample, StrategyReview), r.attempt);
            var (u, kept) := RecordReview(j, sample, r, matched, now);
            if kept == Ok(true) then
              && Admitted(j, k) && k !in j.terminals && k !in j.reviews
              && u == j.(reviews := j.reviews[k := Stored(r, now, j.next)], next := j.next + 1)
            else u == j
  {
  }

  lemma ReviewKeeps(j: Journal, sample: string, r: Review, matched: bool, now: int)
    requires JournalOk(j)
    ensures JournalOk(RecordReview(j, sample, r, matched, now).0)
  {
    ReviewShape(j, sample, r, matched, now);
    if RecordReview(j, sample, r, matched, now).1 == Ok(true) {
      AddReview(j, Key(Slot(sample, StrategyReview), r.attempt), Stored(r, now, j.next));
    }
  }

  lemma AddOutcome(j: Journal, slot: Slot, row: Stored<Outcome>)
    requires JournalOk(j) && slot !in j.outcomes && !j.sealed
    requires OutcomeOk(j.(outcomes := j.outcomes[slot := row], next := j.next + 1), slot)
    ensures JournalOk(j.(outcomes := j.outcomes[slot := row], next := j.next + 1))
  {
    var u := j.(outcomes := j.outcomes[slot := row], next := j.next + 1);
    forall other | other in u.outcomes
      ensures OutcomeOk(u, other)
    {
      if other != slot {
        assert OutcomeOk(j, other);
      }
    }
  }

  /** What `record_outcome` has checked by the time it stores an outcome. */
  lemma OutcomeShape(j: Journal, slot: Slot, o: Outcome, now: int)
    ensures var (u, kept) := RecordOutcome(j, slot, o, now);
            if kept != Ok(true) then u == j
            else
              && slot !in j.outcomes && !j.sealed && slot.sample in j.windows && slot.sample in j.claims
              && u == j.(outcomes := j.outcomes[slot := Stored(o, now, j.next)], next := j.next + 1)
              && o.bundle == BundleOf(j, slot.sample) && o.evaluation == EvaluationOf(j, slot.sample)
              && (o.attempt.Some? <==> slot in j.starts)
              && (slot in j.starts ==>
                    var k := Key(slot, j.starts[slot].fact.attempt);
                    && o.attempt == Some(k.attempt) && o.status == StatusFrom(j, k, j.windows[slot.sample], j.next)
                    && o.decision == DecisionFrom(j, k, j.next))
  {
  }

  lemma NewOutcomeOk(j: Journal, slot: Slot, o: Outcome, now: int)
    requires JournalOk(j) && RecordOutcome(j, slot, o, now).1 == Ok(true)
    ensures OutcomeOk(j.(outcomes := j.outcomes[slot := Stored(o, now, j.next)], next := j.next + 1), slot)
  {
    OutcomeShape(j, slot, o, now);
  }

  lemma OutcomeKeeps(j: Journal, slot: Slot, o: Outcome, now: int)
    requires JournalOk(j)
    ensures JournalOk(RecordOutcome(j, slot, o, now).0)
  {
    OutcomeShape(j, slot, o, now);
    if RecordOutcome(j, slot, o, now).1 == Ok(true) {
      NewOutcomeOk(j, slot, o, now);
      AddOutcome(j, slot, Stored(o, now, j.next));
    }
  }

  lemma NextKeeps(j: Journal, op: Op)
    requires JournalOk(j)
    ensures JournalOk(Next(j, op))
  {
    match op
    case DoStart(slot, s, matched, now) => StartKeeps(j, slot, s, matched, now);
    case DoFinish(slot, t, matched, now) => FinishKeeps(j, slot, t, matched, now);
    case DoReview(sample, r, matched, now) => ReviewKeeps(j, sample, r, matched, now);
    case DoOutcome(slot, o, now) => OutcomeKeeps(j, slot, o, now);
    case _ => InputKeeps(j, op);
  }

  /** Claims, bundles, evaluations, budgets and the seal. */
  lemma InputKeeps(j: Journal, op: Op)
    requires JournalOk(j) && !op.DoStart? && !op.DoFinish? && !op.DoReview? && !op.DoOutcome?
    ensures JournalOk(Next(j, op))
  {
    InputsGrow(j, op);
    OnlyInputs(j, Next(j, op));
  }

  /** Only claims, bundles, evaluations, budgets and the seal moved. */
  ghost predicate InputsOnly(j: Journal, u: Journal) {
    && u.windows == j.windows && u.starts == j.starts && u.terminals == j.terminals && u.reviews == j.reviews
    && u.outcomes == j.outcomes && u.next == j.next && InputsKept(j, u)
  }

  lemma SameInputs(j: Journal)
    ensures InputsOnly(j, j)
  {
  }

  lemma InputsGrow(j: Journal, op: Op)
    requires !op.DoStart? && !op.DoFinish? && !op.DoReview? && !op.DoOutcome?
    ensures InputsOnly(j, Next(j, op))
    ensures Next(j, op).sealed ==> j.sealed || j.outcomes.Keys == Expected(j)
  {
    match op
    case DoSeal => SealShape(j);
    case DoClaim(sample, at) => ClaimShape(j, sample, at);
    case DoBundle(sample, content) => BundleShape(j, sample, content);
    case DoEvaluate(sample, e) => EvaluationShape(j, sample, e);
    case DoBudget(_, _) =>
  }

  lemma SealShape(j: Journal)
    ensures var u := Seal(j).0; InputsOnly(j, u) && (u.sealed ==> j.sealed || j.outcomes.Keys == Expected(j))
  {
  }

  lemma ClaimShape(j: Journal, sample: string, at: int)
    ensures var u := TakeClaim(j, sample, at); InputsOnly(j, u) && u.sealed == j.sealed
  {
    if sample in j.claims || j.sealed {
      SameInputs(j);
    }
  }

  lemma BundleShape(j: Journal, sample: string, content: string)
    ensures var u := FreezeBundle(j, sample, content); InputsOnly(j, u) && u.sealed == j.sealed
  {
    if sample in j.bundles || j.sealed {
      SameInputs(j);
    }
  }

  lemma EvaluationShape(j: Journal, sample: string, e: Evaluation)
    ensures var u := SaveEvaluation(j, sample, e); InputsOnly(j, u) && u.sealed == j.sealed
  {
    if sample in j.evaluations || j.sealed {
      SameInputs(j);
    }
  }

  lemma FinishShape(j: Journal, slot: Slot, t: Terminal, matched: bool, now: int)
    ensures var u := FinishAttempt(j, slot, t, matched, now).0; u.starts == j.starts && u.outcomes == j.outcomes && u.sealed == j.sealed
  {
  }

  lemma StartShape(j: Journal, slot: Slot, s: Start, matched: bool, now: int)
    ensures var (u, r) := StartAttempt(j, slot, s, matched, now);
            if r == Ok(true) then slot !in j.starts && !j.sealed && u == j.(starts := j.starts[slot := Stored(s, now, j.next)], next := j.next + 1)
            else u == j
  {
  }

  lemma OnlyInputs(j: Journal, u: Journal)
    requires JournalOk(j) && InputsOnly(j, u) && (u.sealed ==> j.sealed || j.outcomes.Keys == Expected(j))
    ensures JournalOk(u)
  {
    LaterFactsAreInvisible(j, u);
    assert Expected(u) == Expected(j);
  }

  lemma {:induction false} JournalStaysOk(j: Journal, ops: seq<Op>)
    requires JournalOk(j)
    ensures JournalOk(Run(j, ops))
    decreases |ops|
  {
    if ops != [] {
      NextKeeps(j, ops[0]);
      JournalStaysOk(Next(j, ops[0]), ops[1..]);
    }
  }

  /** No attempt ever has both a review and a terminal, and each belongs to its arm's one START. */
  lemma OneCompletionPerAttempt(j: Journal, ops: seq<Op>, k: Key)
    requires Initial(j)
    ensures var u := Run(j, ops);
            !(k in u.terminals && k in u.reviews) && (k in u.terminals || k in u.reviews ==> Admitted(u, k))
  {
    JournalStaysOk(j, ops);
  }

  /** An arm's outcome names an attempt exactly if the START was stored before it, and then its status
      and decision are the ones derived from the history stored by then. */
  lemma OutcomesFollowHistory(j: Journal, ops: seq<Op>, slot: Slot)
    requires Initial(j) && slot in Run(j, ops).outcomes
    ensures OutcomeOk(Run(j, ops), slot)
  {
    JournalStaysOk(j, ops);
  }

  /** The arms of one window that name an input name the same one. */
  lemma ArmsShareInputs(j: Journal, ops: seq<Op>, a: Slot, b: Slot)
    requires Initial(j) && a.sample == b.sample && a in Run(j, ops).outcomes && b in Run(j, ops).outcomes
    ensures var (x, y) := (Run(j, ops).outcomes[a].fact, Run(j, ops).outcomes[b].fact);
            && (x.bundle.Some? && y.bundle.Some? ==> x.bundle == y.bundle)
            && (x.evaluation.Some? && y.evaluation.Some? ==> x.evaluation == y.evaluation)
  {
    JournalStaysOk(j, ops);
    assert OutcomeOk(Run(j, ops), a) && OutcomeOk(Run(j, ops), b);
  }

  /** A sealed campaign has exactly one outcome for each scheduled window and arm, and no START or
      outcome is added to it; late completions still are. */
  lemma {:induction false} SealIsComplete(j: Journal, ops: seq<Op>)
    requires JournalOk(j) && j.sealed
    ensures var u := Run(j, ops); u.outcomes == j.outcomes && u.outcomes.Keys == Expected(u) && u.starts == j.starts && u.sealed
    decreases |ops|
  {
    if ops != [] {
      NextKeeps(j, ops[0]);
      SealedStep(j, ops[0]);
      SealIsComplete(Next(j, ops[0]), ops[1..]);
    }
  }

  lemma SealedStep(j: Journal, op: Op)
    requires j.sealed
    ensures var u := Next(j, op); u.outcomes == j.outcomes && u.starts == j.starts && u.sealed
  {
    match op
    case DoOutcome(o, outcome, now) => OutcomeShape(j, o, outcome, now);
    case DoReview(sample, r, matched, now) => ReviewShape(j, sample, r, matched, now);
    case DoFinish(o, t, matched, now) => FinishShape(j, o, t, matched, now);
    case DoStart(o, s, matched, now) => StartShape(j, o, s, matched, now);
    case _ =>
  }

  // ---- The order matters ----------------------------------------------------------------

  /** No stored outcome of a started arm leaves out its attempt. */
  ghost predicate NothingHidden(j: Journal) {
    forall slot :: slot in j.outcomes && slot in j.starts ==> j.outcomes[slot].fact.attempt.Some?
  }

  /** `start_attempt` does not look at outcomes: it hides a START exactly when it stores one for an arm
      whose outcome is already there. */
  lemma StartHidesIff(j: Journal, slot: Slot, s: Start, matched: bool, now: int)
    requires JournalOk(j) && NothingHidden(j)
    ensures var (u, r) := StartAttempt(j, slot, s, matched, now);
            NothingHidden(u) <==> !(r == Ok(true) && slot in j.outcomes)
  {
    var (u, r) := StartAttempt(j, slot, s, matched, now);
    StartShape(j, slot, s, matched, now);
    if r == Ok(true) && slot in j.outcomes {
      assert OutcomeOk(j, slot);
      assert slot in u.starts && u.outcomes[slot].fact.attempt.None?;
    }
  }

  /** The step stores a START after its arm's outcome. */
  predicate StartsTooLate(j: Journal, op: Op) {
    op.DoStart? && op.slot in j.outcomes && StartAttempt(j, op.slot, op.start, op.matched, op.now).1 == Ok(true)
  }

  predicate NoLateStart(j: Journal, ops: seq<Op>)
    decreases |ops|
  {
    ops == [] || (!StartsTooLate(j, ops[0]) && NoLateStart(Next(j, ops[0]), ops[1..]))
  }

  lemma OutcomeHidesNothing(j: Journal, slot: Slot, o: Outcome, now: int)
    requires NothingHidden(j)
    ensures NothingHidden(RecordOutcome(j, slot, o, now).0)
  {
    OutcomeShape(j, slot, o, now);
  }

  lemma OthersHideNothing(j: Journal, op: Op)
    requires NothingHidden(j) && !op.DoStart?
    ensures NothingHidden(Next(j, op))
  {
    match op
    case DoOutcome(slot, o, now) => OutcomeHidesNothing(j, slot, o, now);
    case DoReview(sample, r, matched, now) => ReviewShape(j, sample, r, matched, now);
    case DoFinish(slot, t, matched, now) => FinishShape(j, slot, t, matched, now);
    case _ => InputsGrow(j, op);
  }

  /** A hidden START stays hidden: STARTs and outcomes are never rewritten. */
  lemma HiddenStaysHidden(j: Journal, op: Op, slot: Slot)
    requires slot in j.outcomes && slot in j.starts
    ensures var u := Next(j, op); slot in u.outcomes && slot in u.starts && u.outcomes[slot] == j.outcomes[slot] && u.starts[slot] == j.starts[slot]
  {
    match op
    case DoOutcome(o, outcome, now) => OutcomeShape(j, o, outcome, now);
    case DoReview(sample, r, matched, now) => ReviewShape(j, sample, r, matched, now);
    case DoFinish(o, t, matched, now) => FinishShape(j, o, t, matched, now);
    case DoStart(o, s, matched, now) => StartShape(j, o, s, matched, now);
    case _ => InputsGrow(j, op);
  }

  lemma {:induction false} HiddenForEver(j: Journal, ops: seq<Op>, slot: Slot)
    requires slot in j.outcomes && slot in j.starts && j.outcomes[slot].fact.attempt.None?
    ensures !NothingHidden(Run(j, ops))
    decreases |ops|
  {
    if ops != [] {
      HiddenStaysHidden(j, ops[0], slot);
      HiddenForEver(Next(j, ops[0]), ops[1..], slot);
    }
  }

  /** Over a whole run no outcome hides an admitted attempt exactly when no arm is started after its
      outcome was recorded. */
  lemma {:induction false} NothingHiddenIff(j: Journal, ops: seq<Op>)
    requires JournalOk(j) && NothingHidden(j)
    ensures NothingHidden(Run(j, ops)) <==> NoLateStart(j, ops)
    decreases |ops|
  {
    if ops != [] {
      var op := ops[0];
      NextKeeps(j, op);
      if op.DoStart? {
        StartHidesIff(j, op.slot, op.start, op.matched, op.now);
      } else {
        OthersHideNothing(j, op);
      }
      if NothingHidden(Next(j, op)) {
        NothingHiddenIff(Next(j, op), ops[1..]);
      } else {
        var slot :| slot in Next(j, op).outcomes && slot in Next(j, op).starts && Next(j, op).outcomes[slot].fact.attempt.None?;
        HiddenForEver(Next(j, op), ops[1..], slot);
      }
    }
  }

  const SLOT := Slot("s", LlmProposal)
  const QUIET := Journal(0, map["s" := Window(0, 10)], map["s" := 0], map["s" := "bundle"], map["s" := Evaluation(0, true)], map[],
                         map[], map[], map[], map[], 0, false)
  const BLOCKED := Outcome(BudgetBlocked, None, Some("bundle"), Some(Evaluation(0, true)), None, 1)

  /** A concrete case: an arm recorded as BUDGET_BLOCKED is started all the same. */
  lemma StartAfterOutcomeIsHidden()
    ensures Initial(QUIET)
    ensures var u := Next(Next(QUIET, DoOutcome(SLOT, BLOCKED, 1)), DoStart(SLOT, Start("a", 2, ""), true, 2));
            && SLOT in u.starts && SLOT in u.outcomes && u.outcomes[SLOT].fact == BLOCKED && !NothingHidden(u)
  {
    assert SLOT.sample in QUIET.claims && SLOT.sample in QUIET.windows && SLOT.sample in QUIET.evaluations && SLOT.sample in QUIET.bundles;
    assert NoCallOk(QUIET, SLOT, Window(0, 10), BudgetBlocked, 1);
    var u := Next(QUIET, DoOutcome(SLOT, BLOCKED, 1));
    assert SLOT in u.outcomes && SLOT.sample in u.claims && SLOT.sample in u.bundles && SLOT.sample in u.windows;
  }
}
