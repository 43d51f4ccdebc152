/** The read-only evidence of canary_session.py: the recorder `append_observation` and the pure
    verifier `verify_readonly_evidence`.

    Times are milliseconds.  SHA-256 is a free constructor.  An available reading carries every
    measurement, as its contract demands. */
module ReadonlyEvidence {
  import opened Common
  import opened Percentile

  datatype Symbol = Btc | Eth | Sol | Bnb | Xrp

  datatype Metric = Basis | Spread | Slippage

  /** One symbol's values of one metric. */
  datatype Series = Series(symbol: Symbol, metric: Metric)

  const SYMBOLS: seq<Symbol> := [Btc, Eth, Sol, Bnb, Xrp]

  const DAY := 86_400_000
  const LIMIT := 25.0

  datatype Reading = Down | Up(basis: real, spread: real, slippage: real, bookAge: int, skew: int)

  datatype Observation = Observation(observedAt: int, items: map<Symbol, Reading>, gaps: nat, drift: bool, mutations: nat)

  datatype Digest = Zero | ScopeSha(scope: string)
                  | SampleSha(run: string, number: nat, receivedAt: int, previous: Digest, data: Observation)

  datatype Sample = Sample(number: nat, receivedAt: int, data: Observation, previous: Digest, sha: Digest)

  datatype RunRow = RunRow(
    id: string, scope: string, scopeSha: Digest, startedAt: int, period: int, count: nat, head: Digest)

  datatype Error = Identity | Refused

  datatype Receipt = Receipt(
    run: string, scopeSha: Digest, startedAt: int, endedAt: int, count: nat, head: Digest, period: int,
    available: map<Symbol, int>, p95: map<Series, real>)

  function Magnitude(r: Reading, m: Metric): real
    requires r.Up?
  {
    var v := match m case Basis => r.basis case Spread => r.spread case Slippage => r.slippage;
    if v < 0.0 then -v else v
  }

  // ---- What the evidence says -----------------------------------------------------------

  function HeadBefore(samples: seq<Sample>, n: nat): Digest
    requires n <= |samples|
  {
    if n == 0 then Zero else samples[n - 1].sha
  }

  /** When sample `i` stops counting at the latest: the next sample, or the end of the run. */
  function NextAt(samples: seq<Sample>, ended: int, i: nat): int
    requires i < |samples|
  {
    if i + 1 < |samples| then samples[i + 1].receivedAt else ended
  }

  function Weight(run: RunRow, samples: seq<Sample>, ended: int, i: nat): (w: nat)
    requires i < |samples|
  {
    var gap := NextAt(samples, ended, i) - samples[i].receivedAt;
    var w := if gap < run.period then gap else run.period;
    if w < 0 then 0 else w
  }

  predicate ReadsUp(data: Observation, s: Symbol) {
    s in data.items && data.items[s].Up?
  }

  predicate AllUp(data: Observation) {
    forall s: Symbol :: ReadsUp(data, s)
  }

  predicate IsUp(samples: seq<Sample>, i: nat, s: Symbol)
    requires i < |samples|
  {
    ReadsUp(samples[i].data, s)
  }

  /** Milliseconds credited to a symbol by the first `n` samples. */
  function AvailableMs(run: RunRow, samples: seq<Sample>, ended: int, n: nat, s: Symbol): (ms: nat)
    requires n <= |samples|
  {
    if n == 0 then 0
    else AvailableMs(run, samples, ended, n - 1, s) + if IsUp(samples, n - 1, s) then Weight(run, samples, ended, n - 1) else 0
  }

  /** The magnitudes a metric collects over the first `n` samples. */
  function Values(samples: seq<Sample>, n: nat, c: Series): (v: seq<real>)
    requires n <= |samples|
  {
    if n == 0 then []
    else Values(samples, n - 1, c) + if IsUp(samples, n - 1, c.symbol) then [Magnitude(samples[n - 1].data.items[c.symbol], c.metric)] else []
  }

  predicate ChainLinkOk(run: RunRow, samples: seq<Sample>, i: nat)
    requires i < |samples|
  {
    var row := samples[i];
    && row.number == i + 1 && row.previous == HeadBefore(samples, i)
    && row.sha == SampleSha(run.id, i + 1, row.receivedAt, row.previous, row.data)
  }

  predicate TimingOk(run: RunRow, samples: seq<Sample>, ended: int, i: nat)
    requires i < |samples|
  {
    var row := samples[i];
    && run.startedAt <= row.receivedAt <= ended
    && (i > 0 ==> samples[i - 1].receivedAt < row.receivedAt)
    && -2_000 <= row.data.observedAt - row.receivedAt <= 2_000
  }

  /** A used reading comes from a fresh book with honest clocks. */
  predicate BookOk(data: Observation, s: Symbol) {
    ReadsUp(data, s) ==> data.items[s].bookAge <= 5_000 && data.items[s].skew <= 2_000
  }

  predicate CoversAll(data: Observation) {
    forall s: Symbol :: s in data.items
  }

  predicate ContentOk(data: Observation) {
    CoversAll(data) && data.gaps == 0 && !data.drift && data.mutations == 0 && forall s: Symbol :: BookOk(data, s)
  }

  ghost predicate SampleOk(run: RunRow, samples: seq<Sample>, ended: int, i: nat)
    requires i < |samples|
  {
    ChainLinkOk(run, samples, i) && TimingOk(run, samples, ended, i) && ContentOk(samples[i].data)
  }

  predicate HeaderOk(run: RunRow, samples: seq<Sample>, ended: int) {
    && run.scopeSha == ScopeSha(run.scope)
    && ended - run.startedAt >= DAY && 5_000 <= run.period <= 60_000
    && |samples| == run.count && samples != []
  }

  predicate EndsFresh(run: RunRow, samples: seq<Sample>, ended: int)
    requires samples != []
  {
    && ended - samples[|samples| - 1].receivedAt <= run.period
    && AllUp(samples[|samples| - 1].data)
  }

  ghost predicate SymbolOk(run: RunRow, samples: seq<Sample>, ended: int, s: Symbol) {
    && 100 * AvailableMs(run, samples, ended, |samples|, s) >= 99 * (ended - run.startedAt)
    && forall m: Metric :: SeriesOk(samples, Series(s, m))
  }

  ghost predicate SeriesOk(samples: seq<Sample>, c: Series) {
    var v := Values(samples, |samples|, c); v != [] && P95(v) <= LIMIT
  }

  /** What accepted evidence is. */
  ghost predicate Acceptable(run: RunRow, samples: seq<Sample>, ended: int) {
    && HeaderOk(run, samples, ended)
    && (forall i :: 0 <= i < |samples| ==> SampleOk(run, samples, ended, i))
    && HeadBefore(samples, |samples|) == run.head
    && EndsFresh(run, samples, ended)
    && forall s: Symbol :: SymbolOk(run, samples, ended, s)
  }

  // ---- Coverage -------------------------------------------------------------------------

  /** The instants from `a` up to `b`. */
  ghost function Span(a: int, b: int): (span: set<int>)
    ensures forall t :: t in span <==> a <= t < b
    ensures |span| == if a <= b then b - a else 0
    decreases b - a
  {
    if a >= b then {} else Span(a, b - 1) + {b - 1}
  }

  /** Does sample `i` vouch for the symbol at instant `t`? */
  ghost predicate Vouches(run: RunRow, samples: seq<Sample>, ended: int, i: nat, s: Symbol, t: int) {
    && i < |samples| && IsUp(samples, i, s)
    && samples[i].receivedAt <= t < samples[i].receivedAt + Weight(run, samples, ended, i)
  }

  /** The instants of the run at which one of the first `n` samples vouches for the symbol. */
  ghost function Covered(run: RunRow, samples: seq<Sample>, ended: int, n: nat, s: Symbol): set<int> {
    set t | t in Span(run.startedAt, ended) && exists i: nat :: i < n && Vouches(run, samples, ended, i, s, t)
  }

  ghost predicate Timed(run: RunRow, samples: seq<Sample>, ended: int) {
    forall i :: 0 <= i < |samples| ==> TimingOk(run, samples, ended, i)
  }

  /** A sample's interval ends before any later sample begins. */
  lemma {:induction false} IntervalsAreDisjoint(run: RunRow, samples: seq<Sample>, ended: int, i: nat, j: nat)
    requires Timed(run, samples, ended) && i < j < |samples|
    ensures samples[i].receivedAt + Weight(run, samples, ended, i) <= samples[j].receivedAt
    decreases j
  {
    assert TimingOk(run, samples, ended, j);
    if i < j - 1 {
      IntervalsAreDisjoint(run, samples, ended, i, j - 1);
    }
  }

  lemma IntervalInsideRun(run: RunRow, samples: seq<Sample>, ended: int, i: nat)
    requires Timed(run, samples, ended) && i < |samples|
    ensures run.startedAt <= samples[i].receivedAt && samples[i].receivedAt + Weight(run, samples, ended, i) <= ended
  {
    assert TimingOk(run, samples, ended, i);
    assert i + 1 < |samples| ==> TimingOk(run, samples, ended, i + 1);
  }

  /** What sample `i` adds to a symbol's coverage. */
  ghost function Contribution(run: RunRow, samples: seq<Sample>, ended: int, i: nat, s: Symbol): set<int>
    requires i < |samples|
  {
    if IsUp(samples, i, s) then Span(samples[i].receivedAt, samples[i].receivedAt + Weight(run, samples, ended, i)) else {}
  }

  lemma ContributionMeans(run: RunRow, samples: seq<Sample>, ended: int, i: nat, s: Symbol, t: int)
    requires i < |samples|
    ensures t in Contribution(run, samples, ended, i, s) <==> Vouches(run, samples, ended, i, s, t)
  {
  }

  lemma CoverageAdds(run: RunRow, samples: seq<Sample>, ended: int, i: nat, s: Symbol, t: int)
    requires Timed(run, samples, ended) && i < |samples|
    ensures t in Covered(run, samples, ended, i + 1, s) <==>
            t in Covered(run, samples, ended, i, s) || t in Contribution(run, samples, ended, i, s)
  {
    IntervalInsideRun(run, samples, ended, i);
    ContributionMeans(run, samples, ended, i, s, t);
    if t in Covered(run, samples, ended, i + 1, s) {
      var k: nat :| k < i + 1 && Vouches(run, samples, ended, k, s, t);
    }
  }

  lemma CoverageIsNew(run: RunRow, samples: seq<Sample>, ended: int, i: nat, s: Symbol, t: int)
    requires Timed(run, samples, ended) && i < |samples| && t in Covered(run, samples, ended, i, s)
    ensures t !in Contribution(run, samples, ended, i, s)
  {
    var k: nat :| k < i && Vouches(run, samples, ended, k, s, t);
    IntervalsAreDisjoint(run, samples, ended, k, i);
  }

  lemma CoverageStep(run: RunRow, samples: seq<Sample>, ended: int, i: nat, s: Symbol)
    requires Timed(run, samples, ended) && i < |samples|
    ensures Covered(run, samples, ended, i + 1, s) == Covered(run, samples, ended, i, s) + Contribution(run, samples, ended, i, s)
    ensures Covered(run, samples, ended, i, s) !! Contribution(run, samples, ended, i, s)
  {
    forall t
      ensures t in Covered(run, samples, ended, i + 1, s) <==>
              t in Covered(run, samples, ended, i, s) || t in Contribution(run, samples, ended, i, s)
    {
      CoverageAdds(run, samples, ended, i, s, t);
    }
    forall t | t in Covered(run, samples, ended, i, s)
      ensures t !in Contribution(run, samples, ended, i, s)
    {
      CoverageIsNew(run, samples, ended, i, s, t);
    }
  }

  lemma CoverageGrows(run: RunRow, samples: seq<Sample>, ended: int, i: nat, s: Symbol)
    requires Timed(run, samples, ended) && i < |samples|
    ensures |Covered(run, samples, ended, i + 1, s)|
            == |Covered(run, samples, ended, i, s)| + if IsUp(samples, i, s) then Weight(run, samples, ended, i) else 0
  {
    CoverageStep(run, samples, ended, i, s);
    DisjointSize(Covered(run, samples, ended, i, s), Contribution(run, samples, ended, i, s));
  }

  lemma DisjointSize(a: set<int>, b: set<int>)
    requires a !! b
    ensures |a + b| == |a| + |b|
  {
  }

  lemma NothingCovered(run: RunRow, samples: seq<Sample>, ended: int, s: Symbol)
    ensures Covered(run, samples, ended, 0, s) == {}
  {
  }

  /** The credited milliseconds are exactly the number of instants covered: nothing is credited
      twice and nothing outside the run is credited. */
  lemma {:induction false} CreditIsCoverage(run: RunRow, samples: seq<Sample>, ended: int, n: nat, s: Symbol)
    requires Timed(run, samples, ended) && n <= |samples|
    ensures |Covered(run, samples, ended, n, s)| == AvailableMs(run, samples, ended, n, s)
    decreases n
  {
    if n == 0 {
      NothingCovered(run, samples, ended, s);
    } else {
      CreditIsCoverage(run, samples, ended, n - 1, s);
      CoverageGrows(run, samples, ended, n - 1, s);
      assert AvailableMs(run, samples, ended, n, s)
             == AvailableMs(run, samples, ended, n - 1, s) + if IsUp(samples, n - 1, s) then Weight(run, samples, ended, n - 1) else 0;
    }
  }

  lemma CoverageFitsTheRun(run: RunRow, samples: seq<Sample>, ended: int, s: Symbol)
    requires run.startedAt <= ended
    ensures |Covered(run, samples, ended, |samples|, s)| <= ended - run.startedAt
  {
    var all, covered := Span(run.startedAt, ended), Covered(run, samples, ended, |samples|, s);
    assert covered <= all;
    assert |all| == |covered| + |all - covered|;
  }

  /** Accepted evidence covers between 99% and 100% of the instants of the run for every symbol,
      and at most one twentieth of each metric's values exceed 25 bps. */
  lemma AcceptedEvidenceIsSound(run: RunRow, samples: seq<Sample>, ended: int, c: Series)
    requires Acceptable(run, samples, ended)
    ensures var covered := |Covered(run, samples, ended, |samples|, c.symbol)|;
            99 * (ended - run.startedAt) <= 100 * covered <= 100 * (ended - run.startedAt)
    ensures var v := Values(samples, |samples|, c); v != [] && 20 * CountAbove(v, LIMIT) <= |v|
  {
    assert Timed(run, samples, ended) by {
      forall i | 0 <= i < |samples|
        ensures TimingOk(run, samples, ended, i)
      {
        assert SampleOk(run, samples, ended, i);
      }
    }
    assert SymbolOk(run, samples, ended, c.symbol) && SeriesOk(samples, c);
    CreditIsCoverage(run, samples, ended, |samples|, c.symbol);
    CoverageFitsTheRun(run, samples, ended, c.symbol);
    P95MeansOneTwentieth(Values(samples, |samples|, c), LIMIT);
  }

  /** Two accepted sets of samples of one run row are the same samples. */
  lemma {:induction false} HeadCommitsToSamples(run: RunRow, a: seq<Sample>, b: seq<Sample>, n: nat)
    requires n <= |a| && n <= |b| && HeadBefore(a, n) == HeadBefore(b, n)
    requires (forall i :: 0 <= i < |a| ==> ChainLinkOk(run, a, i)) && (forall i :: 0 <= i < |b| ==> ChainLinkOk(run, b, i))
    ensures a[..n] == b[..n]
    decreases n
  {
    if n > 0 {
      assert ChainLinkOk(run, a, n - 1) && ChainLinkOk(run, b, n - 1);
      HeadCommitsToSamples(run, a, b, n - 1);
      assert a[..n] == a[..n - 1] + [a[n - 1]] && b[..n] == b[..n - 1] + [b[n - 1]];
    }
  }

  // ---- The recorder ---------------------------------------------------------------------

  /** What the recorder keeps: an intact chain, strictly rising times, honest clocks. */
  ghost predicate Recorded(run: RunRow, samples: seq<Sample>) {
    && run.scopeSha == ScopeSha(run.scope) && 5_000 <= run.period <= 60_000
    && run.count == |samples| && run.head == HeadBefore(samples, |samples|)
    && forall i :: 0 <= i < |samples| ==> ChainLinkOk(run, samples, i) && Placed(run, samples, i)
  }

  ghost predicate Placed(run: RunRow, samples: seq<Sample>, i: nat)
    requires i < |samples|
  {
    && TimingOk(run, samples, samples[i].receivedAt, i)
    && CoversAll(samples[i].data)
  }

  /** `append_observation` at clock `now`: the run, its samples and the reported sequence. */
  function Append(run: RunRow, samples: seq<Sample>, now: int, data: Observation): (RunRow, seq<Sample>, Result<nat, Error>) {
    var n := |samples|;
    if n > 0 && samples[n - 1].data.observedAt == data.observedAt then
      (run, samples, if samples[n - 1].data != data then Err(Identity) else Ok(n))
    else if n > 0 && now - samples[n - 1].receivedAt < run.period - 2_000 then (run, samples, Err(Refused))
    else if now - data.observedAt > 2_000 || data.observedAt - now > 2_000 then (run, samples, Err(Refused))
    else
      var sha := SampleSha(run.id, n + 1, now, run.head, data);
      (run.(count := n + 1, head := sha), samples + [Sample(n + 1, now, data, run.head, sha)], Ok(n + 1))
  }

  lemma AppendKeepsRecorded(run: RunRow, samples: seq<Sample>, now: int, data: Observation)
    requires Recorded(run, samples) && run.startedAt <= now && CoversAll(data)
    ensures var (longer, more, _) := Append(run, samples, now, data); Recorded(longer, more)
  {
    var (longer, more, _) := Append(run, samples, now, data);
    if more != samples {
      forall i | 0 <= i < |more|
        ensures ChainLinkOk(longer, more, i) && Placed(longer, more, i)
      {
        assert HeadBefore(more, i) == HeadBefore(samples, i);
        assert i < |samples| ==> ChainLinkOk(run, samples, i) && Placed(run, samples, i);
      }
    }
  }

  /** The same observation delivered again leaves the evidence alone and reports the same place. */
  lemma RedeliveryIsNoop(run: RunRow, samples: seq<Sample>, now: int, later: int, data: Observation)
    requires Append(run, samples, now, data).2.Ok?
    ensures var (longer, more, r) := Append(run, samples, now, data);
            Append(longer, more, later, data) == (longer, more, r)
  {
  }

  /** Evidence the recorder wrote is refused only for what it says about the market and the run's
      length: its chain, order and clocks are always in order. */
  lemma RecordedEvidenceIff(run: RunRow, samples: seq<Sample>, ended: int)
    requires Recorded(run, samples) && (samples != [] ==> samples[|samples| - 1].receivedAt <= ended)
    ensures Acceptable(run, samples, ended) <==>
              && ended - run.startedAt >= DAY && samples != []
              && (forall i :: 0 <= i < |samples| ==> ContentOk(samples[i].data))
              && EndsFresh(run, samples, ended)
              && (forall s: Symbol :: SymbolOk(run, samples, ended, s))
  {
    forall i | 0 <= i < |samples|
      ensures SampleOk(run, samples, ended, i) <==> ContentOk(samples[i].data)
    {
      assert ChainLinkOk(run, samples, i) && Placed(run, samples, i);
      LastIsLatest(run, samples, i);
    }
  }

  lemma {:induction false} LastIsLatest(run: RunRow, samples: seq<Sample>, i: nat)
    requires Recorded(run, samples) && i < |samples|
    ensures samples[i].receivedAt <= samples[|samples| - 1].receivedAt
    decreases |samples| - i
  {
    if i + 1 < |samples| {
      assert Placed(run, samples, i + 1);
      LastIsLatest(run, samples, i + 1);
    }
  }
}
