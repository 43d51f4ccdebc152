/** The read-only evidence programs: the verifier's loops and the recording repository. */
module EvidenceRepository {
  import opened Common
  import opened Percentile
  import opened ReadonlyEvidence

  type Available = map<Symbol, int>
  type Measures = map<Series, seq<real>>

  function Place(s: Symbol): (k: nat)
    ensures k < |SYMBOLS| && SYMBOLS[k] == s
  {
    match s case Btc => 0 case Eth => 1 case Sol => 2 case Bnb => 3 case Xrp => 4
  }

  const METRICS: seq<Metric> := [Basis, Spread, Slippage]

  function Rank3(m: Metric): (k: nat)
    ensures k < |METRICS| && METRICS[k] == m
  {
    match m case Basis => 0 case Spread => 1 case Slippage => 2
  }

  /** Credited time comes from samples that also left a measurement. */
  lemma {:induction false} CreditNeedsValues(run: RunRow, samples: seq<Sample>, ended: int, n: nat, c: Series)
    requires n <= |samples| && AvailableMs(run, samples, ended, n, c.symbol) > 0
    ensures Values(samples, n, c) != []
    decreases n
  {
    if !IsUp(samples, n - 1, c.symbol) {
      CreditNeedsValues(run, samples, ended, n - 1, c);
    }
  }

  /** The accumulators after the first `n` samples. */
  ghost predicate Accumulated(run: RunRow, samples: seq<Sample>, ended: int, n: nat, available: Available, measures: Measures)
    requires n <= |samples|
  {
    && (forall s: Symbol :: s in available && available[s] == AvailableMs(run, samples, ended, n, s))
    && (forall c: Series :: c in measures && measures[c] == Values(samples, n, c))
  }

  /** The credits in the middle of sample `i`: the first `k` symbols have it. */
  ghost predicate HalfCredited(run: RunRow, samples: seq<Sample>, ended: int, i: nat, k: nat, available: Available)
    requires i < |samples|
  {
    forall s: Symbol :: s in available && available[s] == AvailableMs(run, samples, ended, if Place(s) < k then i + 1 else i, s)
  }

  /** The values in the middle of sample `i`: `k` symbols have it, and `m` metrics of the next. */
  ghost predicate HalfMeasured(samples: seq<Sample>, i: nat, k: nat, m: nat, measures: Measures)
    requires i < |samples|
  {
    forall c: Series :: c in measures && measures[c] == Values(samples, if Counted(c, k, m) then i + 1 else i, c)
  }

  predicate Counted(c: Series, k: nat, m: nat) {
    Place(c.symbol) < k || (Place(c.symbol) == k && Rank3(c.metric) < m)
  }

  lemma CountedNext(k: nat, m: nat)
    requires k < |SYMBOLS| && m < |METRICS|
    ensures forall c: Series :: Counted(c, k, m + 1) <==> Counted(c, k, m) || c == Series(SYMBOLS[k], METRICS[m])
    ensures !Counted(Series(SYMBOLS[k], METRICS[m]), k, m)
  {
    assert forall s: Symbol :: Place(s) == k <==> s == SYMBOLS[k];
    assert forall r: Metric :: Rank3(r) == m <==> r == METRICS[m];
  }

  lemma CountedWraps(k: nat)
    ensures forall c: Series :: Counted(c, k, |METRICS|) <==> Counted(c, k + 1, 0)
  {
  }

  /** Something of the kind the error names is really wrong with the evidence. */
  ghost predicate Justified(run: RunRow, samples: seq<Sample>, ended: int, e: Error) {
    match e
    case Identity =>
      || run.scopeSha != ScopeSha(run.scope) || |samples| != run.count || samples == []
      || run.head != HeadBefore(samples, |samples|)
      || exists i :: 0 <= i < |samples| && !ChainLinkOk(run, samples, i)
    case Refused =>
      || ended - run.startedAt < DAY || !(5_000 <= run.period <= 60_000)
      || (samples != [] && !EndsFresh(run, samples, ended))
      || (exists i :: 0 <= i < |samples| && !(TimingOk(run, samples, ended, i) && ContentOk(samples[i].data)))
      || exists s: Symbol :: !SymbolOk(run, samples, ended, s)
  }

  class CanarySessionRepository {
    var run: RunRow
    var samples: seq<Sample>
    var receipt: Option<Receipt>

    ghost predicate Valid()
      reads this
    {
      && Recorded(run, samples)
      && (receipt.Some? ==>
            && Acceptable(run, samples, receipt.value.endedAt)
            && Proves(run, samples, receipt.value))
    }

    /** The receipt restates exactly what the evidence contains. */
    ghost static predicate Proves(run: RunRow, samples: seq<Sample>, p: Receipt) {
      && p.run == run.id && p.scopeSha == run.scopeSha && p.startedAt == run.startedAt && p.period == run.period
      && p.count == |samples| && p.head == run.head
      && p.available == (map s: Symbol :: AvailableMs(run, samples, p.endedAt, |samples|, s))
      && (forall c: Series :: Read(samples, p.p95, c))
    }

    /** `begin_readonly`. */
    constructor (id: string, scope: string, startedAt: int, period: int)
      requires 5_000 <= period <= 60_000
      ensures Valid() && samples == [] && receipt.None?
    {
      run := RunRow(id, scope, ScopeSha(scope), startedAt, period, 0, Zero);
      samples, receipt := [], None;
    }

    /** `append_observation`; a certified run is sealed. */
    method AppendObservation(now: int, data: Observation) returns (r: Result<nat, Error>)
      requires Valid() && run.startedAt <= now && CoversAll(data)
      modifies this
      ensures Valid() && receipt == old(receipt)
      ensures if old(receipt).Some? then r == Err(Refused) && run == old(run) && samples == old(samples)
              else (run, samples, r) == Append(old(run), old(samples), now, data)
    {
      if receipt.Some? {
        return Err(Refused);
      }
      AppendKeepsRecorded(run, samples, now, data);
      var n := run.count;
      if n > 0 {
        var last := samples[n - 1];
        if last.data.observedAt == data.observedAt {
          return if last.data != data then Err(Identity) else Ok(n);
        }
        if now - last.receivedAt < run.period - 2_000 {
          return Err(Refused);
        }
      }
      if now - data.observedAt > 2_000 || data.observedAt - now > 2_000 {
        return Err(Refused);
      }
      var sha := SampleSha(run.id, n + 1, now, run.head, data);
      samples := samples + [Sample(n + 1, now, data, run.head, sha)];
      run := run.(count := n + 1, head := sha);
      r := Ok(n + 1);
    }

    /** `certify_readonly`.  Repeating it returns the stored receipt, whenever it is repeated. */
    method CertifyReadonly(now: int, mutationsFound: bool) returns (r: Result<Receipt, Error>)
      requires Valid()
      modifies this
      ensures Valid() && run == old(run) && samples == old(samples)
      ensures r.Ok? ==> receipt == Some(r.value)
      ensures r.Err? ==> receipt == old(receipt)
      ensures old(receipt).Some? && !mutationsFound ==> r == Ok(old(receipt).value)
      ensures old(receipt).None? ==> (r.Ok? <==> Acceptable(run, samples, now) && !mutationsFound)
    {
      var ended := if receipt.Some? then receipt.value.endedAt else now;
      r := VerifyReadonlyEvidence(run, samples, ended);
      if r.Err? {
        return;
      }
      if mutationsFound {
        return Err(Refused);
      }
      if receipt.Some? && r.value != receipt.value {
        ProofsAgree(run, samples, r.value, receipt.value);
        return Err(Identity);
      }
      receipt := Some(r.value);
    }

    static lemma ProofsAgree(run: RunRow, samples: seq<Sample>, p: Receipt, q: Receipt)
      requires Proves(run, samples, p) && Proves(run, samples, q) && p.endedAt == q.endedAt
      ensures p == q
    {
      forall c: Series
        ensures c in p.p95 && c in q.p95 && p.p95[c] == q.p95[c]
      {
        assert Read(samples, p.p95, c) && Read(samples, q.p95, c);
      }
      assert p.p95 == q.p95;
    }

    /** One accepted sample enters the accumulators of every symbol. */
    static method Measure(run: RunRow, samples: seq<Sample>, ended: int, i: nat, available: Available, measures: Measures)
      returns (ok: bool, available': Available, measures': Measures)
      requires i < |samples| && Accumulated(run, samples, ended, i, available, measures) && CoversAll(samples[i].data)
      ensures ok <==> forall s: Symbol :: BookOk(samples[i].data, s)
      ensures ok ==> Accumulated(run, samples, ended, i + 1, available', measures')
    {
      available', measures' := available, measures;
      for k := 0 to |SYMBOLS|
        invariant forall s: Symbol :: Place(s) < k ==> BookOk(samples[i].data, s)
        invariant HalfCredited(run, samples, ended, i, k, available') && HalfMeasured(samples, i, k, 0, measures')
      {
        if !BookOk(samples[i].data, SYMBOLS[k]) {
          return false, available', measures';
        }
        available' := Credit(run, samples, ended, i, k, available');
        measures' := Collect(samples, i, k, measures');
      }
      ok := true;
    }

    static method Credit(run: RunRow, samples: seq<Sample>, ended: int, i: nat, k: nat, available: Available) returns (more: Available)
      requires i < |samples| && k < |SYMBOLS| && HalfCredited(run, samples, ended, i, k, available)
      ensures HalfCredited(run, samples, ended, i, k + 1, more)
    {
      var s := SYMBOLS[k];
      more := available;
      assert forall r: Symbol :: Place(r) == k <==> r == s;
      if IsUp(samples, i, s) {
        var gap := NextAt(samples, ended, i) - samples[i].receivedAt;
        var weight := if gap < run.period then gap else run.period;
        more := more[s := more[s] + if weight < 0 then 0 else weight];
      }
    }

    static method Collect(samples: seq<Sample>, i: nat, k: nat, measures: Measures) returns (more: Measures)
      requires i < |samples| && k < |SYMBOLS| && HalfMeasured(samples, i, k, 0, measures)
      ensures HalfMeasured(samples, i, k + 1, 0, more)
    {
      more := measures;
      for j := 0 to |METRICS|
        invariant HalfMeasured(samples, i, k, j, more)
      {
        var c := Series(SYMBOLS[k], METRICS[j]);
        CountedNext(k, j);
        if IsUp(samples, i, c.symbol) {
          more := more[c := more[c] + [Magnitude(samples[i].data.items[c.symbol], c.metric)]];
        }
      }
      CountedWraps(k);
    }

    /** The sample loop. */
    static method Accumulate(run: RunRow, samples: seq<Sample>, ended: int)
      returns (fault: Option<Error>, available: Available, measures: Measures)
      ensures fault.None? ==> forall i :: 0 <= i < |samples| ==> SampleOk(run, samples, ended, i)
      ensures fault.None? ==> Accumulated(run, samples, ended, |samples|, available, measures)
      ensures fault.Some? ==> Justified(run, samples, ended, fault.value)
      ensures fault.Some? ==> exists i :: 0 <= i < |samples| && !SampleOk(run, samples, ended, i)
    {
      available := map s: Symbol :: AvailableMs(run, samples, ended, 0, s);
      measures := map s: Symbol, m: Metric :: Series(s, m) := Values(samples, 0, Series(s, m));
      forall c: Series
        ensures c in measures && measures[c] == []
      {
        assert c == Series(c.symbol, c.metric) && Series(c.symbol, c.metric) in measures;
      }
      fault := None;
      var head := Zero;
      for i := 0 to |samples|
        invariant forall k :: 0 <= k < i ==> SampleOk(run, samples, ended, k)
        invariant head == HeadBefore(samples, i)
        invariant Accumulated(run, samples, ended, i, available, measures)
      {
        var row := samples[i];
        if row.number != i + 1 || row.previous != head || row.sha != SampleSha(run.id, i + 1, row.receivedAt, head, row.data) {
          assert !ChainLinkOk(run, samples, i) && !SampleOk(run, samples, ended, i);
          return Some(Identity), available, measures;
        }
        if !TimingOk(run, samples, ended, i) {
          assert !SampleOk(run, samples, ended, i);
          return Some(Refused), available, measures;
        }
        if row.data.gaps > 0 || row.data.drift || row.data.mutations > 0 || !CoversAll(row.data) {
          assert !ContentOk(samples[i].data) && !SampleOk(run, samples, ended, i);
          return Some(Refused), available, measures;
        }
        var ok;
        ok, available, measures := Measure(run, samples, ended, i, available, measures);
        if !ok {
          assert !ContentOk(samples[i].data) && !SampleOk(run, samples, ended, i);
          return Some(Refused), available, measures;
        }
        head := row.sha;
      }
    }

    /** The final loop over symbols and metrics. */
    static method Judge(run: RunRow, samples: seq<Sample>, ended: int, available: Available, measures: Measures)
      returns (p95: Option<map<Series, real>>)
      requires ended - run.startedAt >= DAY && Accumulated(run, samples, ended, |samples|, available, measures)
      ensures p95.Some? <==> forall s: Symbol :: SymbolOk(run, samples, ended, s)
      ensures p95.Some? ==> forall c: Series :: Read(samples, p95.value, c)
    {
      var found: map<Series, real> := map[];
      for k := 0 to |SYMBOLS|
        invariant forall s: Symbol :: Place(s) < k ==> SymbolOk(run, samples, ended, s)
        invariant forall c: Series :: Place(c.symbol) < k ==> Read(samples, found, c)
      {
        var s := SYMBOLS[k];
        if 100 * available[s] < 99 * (ended - run.startedAt) {
          assert !SymbolOk(run, samples, ended, s);
          return None;
        }
        var ok;
        ok, found := JudgeMetrics(run, samples, ended, s, measures, found);
        if !ok {
          return None;
        }
      }
      p95 := Some(found);
    }

    /** A reported percentile is the one of the collected values. */
    ghost static predicate Read(samples: seq<Sample>, p95: map<Series, real>, c: Series) {
      var v := Values(samples, |samples|, c); v != [] && c in p95 && p95[c] == P95(v)
    }

    /** One percentile.  The symbol's availability guarantees that the list is not empty. */
    static method JudgeMetric(run: RunRow, samples: seq<Sample>, ended: int, c: Series, values: seq<real>) returns (p: Option<real>)
      requires AvailableMs(run, samples, ended, |samples|, c.symbol) > 0 && values == Values(samples, |samples|, c)
      ensures p.Some? <==> SeriesOk(samples, c)
      ensures p.Some? ==> Read(samples, map[c := p.value], c)
    {
      CreditNeedsValues(run, samples, ended, |samples|, c);
      var p95 := P95(values);
      p := if p95 > LIMIT then None else Some(p95);
    }

    static lemma ReadKept(samples: seq<Sample>, found: map<Series, real>, c: Series, p: real, d: Series)
      requires Read(samples, map[c := p], c) && (d == c || Read(samples, found, d))
      ensures Read(samples, found[c := p], d)
    {
    }

    /** One symbol's three percentiles. */
    static method JudgeMetrics(run: RunRow, samples: seq<Sample>, ended: int, s: Symbol, measures: Measures, found: map<Series, real>)
      returns (ok: bool, more: map<Series, real>)
      requires AvailableMs(run, samples, ended, |samples|, s) > 0
      requires forall c: Series :: c in measures && measures[c] == Values(samples, |samples|, c)
      ensures ok <==> forall m: Metric :: SeriesOk(samples, Series(s, m))
      ensures ok ==> forall c: Series :: c.symbol == s || Read(samples, found, c) ==> Read(samples, more, c)
    {
      more := found;
      for k := 0 to |METRICS|
        invariant forall m: Metric :: Rank3(m) < k ==> SeriesOk(samples, Series(s, m))
        invariant forall c: Series :: (c.symbol == s && Rank3(c.metric) < k) || Read(samples, found, c) ==> Read(samples, more, c)
      {
        var c := Series(s, METRICS[k]);
        var p := JudgeMetric(run, samples, ended, c, measures[c]);
        if p.None? {
          assert !SeriesOk(samples, c);
          return false, more;
        }
        forall d: Series | d == c || Read(samples, more, d)
          ensures Read(samples, more[c := p.value], d)
        {
          ReadKept(samples, more, c, p.value, d);
        }
        assert forall m: Metric :: Rank3(m) == k <==> m == METRICS[k];
        more := more[c := p.value];
      }
      ok := true;
    }

    /** `verify_readonly_evidence`. */
    static method VerifyReadonlyEvidence(run: RunRow, samples: seq<Sample>, ended: int) returns (r: Result<Receipt, Error>)
      ensures r.Ok? <==> Acceptable(run, samples, ended)
      ensures r.Ok? ==> Proves(run, samples, r.value) && r.value.endedAt == ended
      ensures r.Err? ==> Justified(run, samples, ended, r.error)
    {
      if run.scopeSha != ScopeSha(run.scope) {
        return Err(Identity);
      }
      if ended - run.startedAt < DAY || !(5_000 <= run.period <= 60_000) {
        return Err(Refused);
      }
      if |samples| != run.count || samples == [] {
        return Err(Identity);
      }
      var fault, available, measures := Accumulate(run, samples, ended);
      if fault.Some? {
        return Err(fault.value);
      }
      if samples[|samples| - 1].sha != run.head {
        return Err(Identity);
      }
      if !EndsFresh(run, samples, ended) {
        return Err(Refused);
      }
      var p95 := Judge(run, samples, ended, available, measures);
      if p95.None? {
        return Err(Refused);
      }
      assert available == map s: Symbol :: AvailableMs(run, samples, ended, |samples|, s);
      r := Ok(Receipt(run.id, run.scopeSha, run.startedAt, ended, |samples|, run.head, run.period, available, p95.value));
    }
  }
}
