/** The campaign repository of research_campaign.py with its tables as fields. */
module CampaignRepository {
  import opened Common
  import Claims = CampaignClaims
  import Costs = CampaignCosts
  import opened CampaignAttempts

  /** What a denominator receipt reports; its costs are a snapshot. */
  datatype Denominator = Denominator(
    expected: nat, outcomes: OutcomesSha, counts: map<Status, nat>, unknown: nat, costs: Costs.Summary)

  /** The hash over the sorted hashes of the outcome receipts. */
  datatype OutcomesSha = OutcomesSha(receipts: map<Slot, Outcome>)

  /** The stored outcome receipts, without their clocks. */
  function Receipts(outcomes: map<Slot, Stored<Outcome>>): map<Slot, Outcome> {
    map slot | slot in outcomes :: outcomes[slot].fact
  }

  /** The slots whose outcome has a status. */
  ghost function WithStatus(outcomes: map<Slot, Stored<Outcome>>, s: Status): set<Slot> {
    set slot | slot in outcomes && outcomes[slot].fact.status == s
  }

  /** The counter of `seal_denominator`: every status that occurs, with how often. */
  ghost predicate Counts(outcomes: map<Slot, Stored<Outcome>>, counts: map<Status, nat>) {
    forall s: Status :: (if s in counts then counts[s] else 0) == |WithStatus(outcomes, s)|
  }

  ghost predicate OnlyOccurring(counts: map<Status, nat>) {
    forall s :: s in counts ==> counts[s] > 0
  }

  ghost predicate Reports(j: Journal, d: Denominator) {
    && d.expected == |Expected(j)| && d.outcomes == OutcomesSha(Receipts(j.outcomes)) && Counts(j.outcomes, d.counts) && OnlyOccurring(d.counts)
    && d.unknown == |WithStatus(j.outcomes, Unknown)|
  }

  /** The claims and windows the journal's checks look up are those of the queue. */
  ghost predicate SameCampaign(schedule: seq<Claims.Window>, claims: seq<Claims.Claim>, j: Journal) {
    && (forall i :: 0 <= i < |schedule| ==> schedule[i].sample in j.windows)
    && (forall sample :: sample in j.claims <==> Claims.IsClaimed(claims, sample))
  }

  /** The journal is sound and, once sealed, is the one reported. */
  ghost predicate ReportedOk(schedule: seq<Claims.Window>, claims: seq<Claims.Claim>, j: Journal, report: Option<Denominator>) {
    && SameCampaign(schedule, claims, j) && JournalOk(j)
    && (j.sealed <==> report.Some?) && (report.Some? ==> Reports(j, report.value))
  }

  /** A sealed campaign has claimed every window: it has an outcome for each. */
  lemma SealedMeansClaimed(schedule: seq<Claims.Window>, claims: seq<Claims.Claim>, j: Journal, now: int, i: nat)
    requires SameCampaign(schedule, claims, j) && JournalOk(j) && j.sealed
    ensures !Claims.Claimable(schedule, claims, now, i)
  {
    if i < |schedule| {
      var slot := Slot(schedule[i].sample, StrategyOnly);
      assert slot in Expected(j);
      assert OutcomeOk(j, slot);
    }
  }

  /** A counter is determined by what it counts. */
  lemma CounterIsUnique(outcomes: map<Slot, Stored<Outcome>>, a: map<Status, nat>, b: map<Status, nat>)
    requires Counts(outcomes, a) && Counts(outcomes, b) && OnlyOccurring(a) && OnlyOccurring(b)
    ensures a == b
  {
    forall s: Status
      ensures s in a <==> s in b
      ensures s in a ==> a[s] == b[s]
    {
      assert (if s in a then a[s] else 0) == (if s in b then b[s] else 0);
    }
  }

  class ResearchCampaignRepository {
    const schedule: seq<Claims.Window>
    var claims: seq<Claims.Claim>
    var costs: seq<Costs.CostRow>
    var journal: Journal
    var denominator: Option<Denominator>

    ghost predicate Valid()
      reads this
    {
      && Claims.Scheduled(schedule) && Claims.ClaimsArePrefix(schedule, claims) && Costs.RowsOk(costs) && Costs.Sorted(costs)
      && ReportedOk(schedule, claims, journal, denominator)
    }

    constructor (schedule: seq<Claims.Window>, journal: Journal)
      requires Claims.Scheduled(schedule) && SameCampaign(schedule, [], journal) && Initial(journal)
      ensures Valid() && claims == [] && costs == [] && this.journal == journal && denominator.None?
    {
      this.schedule, this.journal := schedule, journal;
      claims, costs, denominator := [], [], None;
    }

    /** `claim_next`: the queue and the journal's look-up by sample. */
    method ClaimNext(now: int) returns (claim: Option<Claims.Claim>)
      requires Valid()
      modifies this`claims, this`journal
      ensures Valid()
      ensures claim.Some? <==> exists i: nat :: Claims.Claimable(schedule, old(claims), now, i)
      ensures claim.None? ==> claims == old(claims) && journal == old(journal)
      ensures claim.Some? ==> claims == old(claims) + [claim.value]
                              && journal == Next(old(journal), DoClaim(claim.value.sample, now))
      ensures claim.Some? ==> exists i: nat :: Claims.Chosen(schedule, old(claims), now, i) && schedule[i].sample == claim.value.sample
    {
      ghost var before := claims;
      claim, claims := Claims.ClaimNext(schedule, claims, now);
      if claim.Some? {
        ghost var i: nat :| Claims.Chosen(schedule, before, now, i) && schedule[i].sample == claim.value.sample;
        if journal.sealed {
          SealedMeansClaimed(schedule, before, journal, now, i);
        }
        InputKeeps(journal, DoClaim(claim.value.sample, now));
        assert Expected(Next(journal, DoClaim(claim.value.sample, now))) == Expected(journal);
        forall sample
          ensures Claims.IsClaimed(claims, sample) <==> Claims.IsClaimed(before, sample) || sample == claim.value.sample
        {
          Claims.ClaimedSnoc(before, claim.value, sample);
        }
        journal := journal.(claims := journal.claims[claim.value.sample := now]);
      }
    }

    method RecordCost(row: Costs.CostRow, now: int) returns (r: Result<bool, Costs.Error>)
      requires Valid()
      modifies this`costs
      ensures Valid()
      ensures (costs, r) == Costs.Record(old(costs), row, Claims.IsClaimed(claims, row.op.sample), journal.sealed, now)
    {
      Costs.RecordKeepsRows(costs, row, Claims.IsClaimed(claims, row.op.sample), journal.sealed, now);
      if !Claims.IsClaimed(claims, row.op.sample) || !(0 <= now - row.observedAt <= 2_000) || !Costs.Fenced(costs, row) {
        return Err(Costs.Conflict);
      }
      var existing := Costs.Find(costs, row.op, row.stage);
      if existing.Some? {
        return if existing.value != row then Err(Costs.Conflict) else Ok(false);
      }
      if journal.sealed && row.stage == Costs.Requested {
        return Err(Costs.Conflict);
      }
      costs := Costs.Put(costs, row);
      r := Ok(true);
    }

    method Start(slot: Slot, s: Start, matched: bool, now: int) returns (r: Result<bool, Error>)
      requires Valid()
      modifies this`journal
      ensures Valid() && (journal, r) == StartAttempt(old(journal), slot, s, matched, now)
    {
      StartKeeps(journal, slot, s, matched, now);
      assert Expected(StartAttempt(journal, slot, s, matched, now).0) == Expected(journal);
      r := StartLocked(slot, s, matched, now);
    }

    method StartLocked(slot: Slot, s: Start, matched: bool, now: int) returns (r: Result<bool, Error>)
      modifies this`journal
      ensures (journal, r) == StartAttempt(old(journal), slot, s, matched, now)
    {
      var j := journal;
      if slot.sample !in j.claims || slot.sample !in j.bundles || slot.sample !in j.windows {
        return Err(Conflict);
      }
      var w := j.windows[slot.sample];
      if !(w.market <= now < w.pairedAt) || Apart(now, s.startedAt) > j.skew || !matched {
        return Err(Conflict);
      }
      if slot in j.starts {
        return if j.starts[slot].fact != s then Err(Conflict) else Ok(false);
      }
      if j.sealed {
        return Err(Conflict);
      }
      journal := j.(starts := j.starts[slot := Stored(s, now, j.next)], next := j.next + 1);
      r := Ok(true);
    }

    method Finish(slot: Slot, t: Terminal, matched: bool, now: int) returns (r: Result<bool, Error>)
      requires Valid()
      modifies this`journal
      ensures Valid() && (journal, r) == FinishAttempt(old(journal), slot, t, matched, now)
    {
      FinishKeeps(journal, slot, t, matched, now);
      assert Expected(FinishAttempt(journal, slot, t, matched, now).0) == Expected(journal);
      r := FinishLocked(slot, t, matched, now);
    }

    method FinishLocked(slot: Slot, t: Terminal, matched: bool, now: int) returns (r: Result<bool, Error>)
      modifies this`journal
      ensures (journal, r) == FinishAttempt(old(journal), slot, t, matched, now)
    {
      var j, k := journal, Key(slot, t.attempt);
      if !Admitted(j, k) || t.observedAt < j.starts[slot].fact.startedAt || k in j.reviews {
        return Err(Conflict);
      }
      if k in j.terminals {
        return if j.terminals[k].fact != t then Err(Conflict) else Ok(false);
      }
      if !ClockOk(j, slot, t.observedAt, now) || !matched || (slot.arm != LlmProposal && t.ending == Completed) {
        return Err(Conflict);
      }
      journal := j.(terminals := j.terminals[k := Stored(t, now, j.next)], next := j.next + 1);
      r := Ok(true);
    }

    method RecordReviewReceipt(sample: string, review: Review, matched: bool, now: int) returns (r: Result<bool, Error>)
      requires Valid()
      modifies this`journal
      ensures Valid() && (journal, r) == RecordReview(old(journal), sample, review, matched, now)
    {
      ReviewKeeps(journal, sample, review, matched, now);
      assert Expected(RecordReview(journal, sample, review, matched, now).0) == Expected(journal);
      r := ReviewLocked(sample, review, matched, now);
    }

    method ReviewLocked(sample: string, review: Review, matched: bool, now: int) returns (r: Result<bool, Error>)
      modifies this`journal
      ensures (journal, r) == RecordReview(old(journal), sample, review, matched, now)
    {
      var slot := Slot(sample, StrategyReview);
      var j, k := journal, Key(slot, review.attempt);
      if !Admitted(j, k) || k in j.terminals {
        return Err(Conflict);
      }
      if k in j.reviews {
        return if j.reviews[k].fact != review then Err(Conflict) else Ok(false);
      }
      if !ClockOk(j, slot, review.observedAt, now) || !matched || sample !in j.evaluations || !j.evaluations[sample].hasIntent {
        return Err(Conflict);
      }
      journal := j.(reviews := j.reviews[k := Stored(review, now, j.next)], next := j.next + 1);
      r := Ok(true);
    }

    method RecordOutcomeReceipt(slot: Slot, o: Outcome, now: int) returns (r: Result<bool, Error>)
      requires Valid()
      modifies this`journal
      ensures Valid() && (journal, r) == RecordOutcome(old(journal), slot, o, now)
    {
      OutcomeKeeps(journal, slot, o, now);
      if journal.sealed {
        OutcomeKeepsReport(journal, slot, o, now);
      }
      assert !RecordOutcome(journal, slot, o, now).0.sealed || journal.sealed;
      r := OutcomeLocked(slot, o, now);
    }

    /** A sealed campaign takes no new outcome, so its report stays true. */
    static lemma OutcomeKeepsReport(j: Journal, slot: Slot, o: Outcome, now: int)
      requires j.sealed
      ensures RecordOutcome(j, slot, o, now).0 == j
    {
    }

    method OutcomeLocked(slot: Slot, o: Outcome, now: int) returns (r: Result<bool, Error>)
      modifies this`journal
      ensures (journal, r) == RecordOutcome(old(journal), slot, o, now)
    {
      var j := journal;
      if slot.sample !in j.claims || slot.sample !in j.windows {
        return Err(Conflict);
      }
      if slot in j.outcomes {
        return if j.outcomes[slot].fact != o then Err(Conflict) else Ok(false);
      }
      if o.observedAt < j.claims[slot.sample] || now < o.observedAt {
        return Err(Conflict);
      }
      if o.bundle != BundleOf(j, slot.sample) || o.evaluation != EvaluationOf(j, slot.sample) {
        return Err(Conflict);
      }
      var w := j.windows[slot.sample];
      if slot in j.starts {
        var k := Key(slot, j.starts[slot].fact.attempt);
        if o.attempt != Some(k.attempt) || (k in j.terminals && k in j.reviews)
           || o.status != StatusFrom(j, k, w, j.next) || o.decision != DecisionFrom(j, k, j.next) {
          return Err(Conflict);
        }
      } else if o.attempt.Some? || o.decision.Some? || !NoCallOk(j, slot, w, o.status, now) {
        return Err(Conflict);
      }
      if j.sealed {
        return Err(Conflict);
      }
      journal := j.(outcomes := j.outcomes[slot := Stored(o, now, j.next)], next := j.next + 1);
      r := Ok(true);
    }

    /** `seal_denominator`.  The first call freezes the report; every later call returns it, whatever
        late costs and completions have arrived since. */
    method SealDenominator() returns (r: Result<Denominator, Error>)
      requires Valid()
      modifies this`journal, this`denominator
      ensures Valid()
      ensures r.Ok? <==> old(journal).outcomes.Keys == Expected(old(journal))
      ensures r.Err? ==> journal == old(journal) && denominator == old(denominator)
      ensures r.Ok? ==> journal == old(journal).(sealed := true) && denominator == Some(r.value) && Reports(journal, r.value)
      ensures old(denominator).Some? ==> r == Ok(old(denominator).value)
      ensures old(denominator).None? && r.Ok? ==> r.value.costs == Costs.Summarise(costs)
    {
      if journal.outcomes.Keys != Expected(journal) {
        return Err(Conflict);
      }
      if denominator.Some? {
        var agrees := Agrees(denominator.value);
        return if agrees then Ok(denominator.value) else Err(Conflict);
      }
      r := FirstSeal();
    }

    /** Does a stored report still describe the outcomes?  It always does. */
    method Agrees(saved: Denominator) returns (agrees: bool)
      requires Reports(journal, saved) && journal.outcomes.Keys == Expected(journal)
      ensures agrees
    {
      var counts := CountStatuses(journal.outcomes);
      CounterIsUnique(journal.outcomes, counts, saved.counts);
      agrees := saved.expected == |journal.outcomes.Keys| && saved.outcomes == OutcomesSha(Receipts(journal.outcomes))
                && saved.counts == counts
                && saved.unknown == if Unknown in counts then counts[Unknown] else 0;
    }

    method FirstSeal() returns (r: Result<Denominator, Error>)
      requires Valid() && denominator.None? && journal.outcomes.Keys == Expected(journal)
      modifies this`journal, this`denominator
      ensures Valid() && r.Ok? && journal == old(journal).(sealed := true) && denominator == Some(r.value)
      ensures r.value.costs == Costs.Summarise(costs)
    {
      var d := Report();
      SealedCampaign(schedule, claims, journal, d);
      journal, denominator := journal.(sealed := true), Some(d);
      r := Ok(d);
    }

    method Report() returns (d: Denominator)
      requires journal.outcomes.Keys == Expected(journal)
      ensures Reports(journal, d) && d.costs == Costs.Summarise(costs)
    {
      var counts := CountStatuses(journal.outcomes);
      var unknown := if Unknown in counts then counts[Unknown] else 0;
      var summary := SummariseCosts(costs);
      d := Denominator(|journal.outcomes.Keys|, OutcomesSha(Receipts(journal.outcomes)), counts, unknown, summary);
    }

    static lemma SealedJournal(j: Journal)
      requires JournalOk(j) && j.outcomes.Keys == Expected(j)
      ensures JournalOk(j.(sealed := true)) && Expected(j.(sealed := true)) == Expected(j)
    {
      OnlyInputs(j, j.(sealed := true));
    }

    static lemma SealedCampaign(schedule: seq<Claims.Window>, claims: seq<Claims.Claim>, j: Journal, d: Denominator)
      requires SameCampaign(schedule, claims, j) && JournalOk(j) && j.outcomes.Keys == Expected(j) && Reports(j, d)
      ensures ReportedOk(schedule, claims, j.(sealed := true), Some(d))
    {
      SealedJournal(j);
    }

    /** `Counter(x.status for x in outcomes)`. */
    static method CountStatuses(outcomes: map<Slot, Stored<Outcome>>) returns (counts: map<Status, nat>)
      ensures Counts(outcomes, counts) && OnlyOccurring(counts)
    {
      counts := map[];
      var todo := outcomes.Keys;
      ghost var seen: map<Slot, Stored<Outcome>> := map[];
      while todo != {}
        invariant todo <= outcomes.Keys && seen == map slot | slot in outcomes && slot !in todo :: outcomes[slot]
        invariant Counts(seen, counts) && OnlyOccurring(counts)
      {
        var slot :| slot in todo;
        var s := outcomes[slot].fact.status;
        OneMore(seen, slot, outcomes[slot]);
        counts := counts[s := (if s in counts then counts[s] else 0) + 1];
        seen := seen[slot := outcomes[slot]];
        todo := todo - {slot};
      }
      assert seen == outcomes;
    }

    static lemma OneMore(seen: map<Slot, Stored<Outcome>>, slot: Slot, row: Stored<Outcome>)
      requires slot !in seen
      ensures forall s: Status ::
                |WithStatus(seen[slot := row], s)| == |WithStatus(seen, s)| + if row.fact.status == s then 1 else 0
    {
      forall s: Status
        ensures |WithStatus(seen[slot := row], s)| == |WithStatus(seen, s)| + if row.fact.status == s then 1 else 0
      {
        var more := WithStatus(seen[slot := row], s);
        if row.fact.status == s {
          assert more == WithStatus(seen, s) + {slot};
        } else {
          assert more == WithStatus(seen, s);
        }
      }
    }

    /** `{x.attempt_id: x.amount_microusd for x in costs if x.stage == stage}`. */
    static method CollectStage(rows: seq<Costs.CostRow>, stage: Costs.Stage) returns (found: map<string, nat>)
      ensures found == Costs.Collect(rows, |rows|, stage)
    {
      found := map[];
      for n := 0 to |rows|
        invariant found == Costs.Collect(rows, n, stage)
      {
        if rows[n].stage == stage {
          found := found[rows[n].op.attempt := rows[n].amount];
        }
      }
    }

    static method SumValues(m: map<string, nat>) returns (sum: nat)
      ensures sum == Costs.Total(m)
    {
      sum := 0;
      var rest := m;
      while rest != map[]
        invariant sum + Costs.Total(rest) == Costs.Total(m)
        decreases |rest|
      {
        var k :| k in rest;
        Costs.TotalWithout(rest, k);
        Costs.Smaller(rest, k);
        sum := sum + rest[k];
        rest := rest - {k};
      }
    }

    static method SummariseCosts(rows: seq<Costs.CostRow>) returns (s: Costs.Summary)
      ensures s == Costs.Summarise(rows)
    {
      var requested := CollectStage(rows, Costs.Requested);
      var reserved := CollectStage(rows, Costs.Reserved);
      var denied := CollectStage(rows, Costs.Denied);
      var asked := CollectStage(rows, Costs.CommitRequested);
      var committed := CollectStage(rows, Costs.Committed);
      var uncertain := Costs.Without(requested, reserved.Keys + denied.Keys);
      var spent := SumValues(committed);
      var held := SumValues(Costs.Without(reserved, committed.Keys));
      var open := SumValues(uncertain);
      s := Costs.Summary(spent, held + open, |uncertain| + |Costs.Without(asked, committed.Keys)|);
    }
  }
}
