/** The once-only window queue of research_campaign.py (`claim_next`): the schedule's windows in the
    order the query sorts them, and the claims. */
module CampaignClaims {
  import opened Common

  datatype Window = Window(sample: string, market: int, symbol: string, timeframe: string, pairedAt: int)

  datatype Claim = Claim(sample: string, claimedAt: int)

  /** Text order, character by character. */
  predicate TextBefore(a: string, b: string) {
    b != [] && (a == [] || a[0] < b[0] || (a[0] == b[0] && TextBefore(a[1..], b[1..])))
  }

  /** ORDER BY market_as_of_ts_ms, symbol, timeframe, sample_id. */
  predicate Before(a: Window, b: Window) {
    || a.market < b.market
    || (a.market == b.market && (
          || TextBefore(a.symbol, b.symbol)
          || (a.symbol == b.symbol && (
                || TextBefore(a.timeframe, b.timeframe)
                || (a.timeframe == b.timeframe && TextBefore(a.sample, b.sample))))))
  }

  lemma {:induction false} TextTotal(a: string, b: string)
    ensures (TextBefore(a, b) || a == b || TextBefore(b, a)) && !(TextBefore(a, b) && TextBefore(b, a)) && !TextBefore(a, a)
    decreases |a|
  {
    if a != [] && b != [] {
      TextTotal(a[1..], b[1..]);
      assert a == [a[0]] + a[1..] && b == [b[0]] + b[1..];
    }
    if a != [] {
      TextTotal(a[1..], a[1..]);
    }
  }

  lemma {:induction false} TextTransitive(a: string, b: string, c: string)
    requires TextBefore(a, b) && TextBefore(b, c)
    ensures TextBefore(a, c)
    decreases |a|
  {
    if a != [] && a[0] == b[0] && b[0] == c[0] {
      TextTransitive(a[1..], b[1..], c[1..]);
    }
  }

  lemma BeforeTotal(a: Window, b: Window)
    ensures Before(a, b) || Before(b, a) || a.sample == b.sample
    ensures !(Before(a, b) && Before(b, a))
  {
    TextTotal(a.symbol, b.symbol);
    TextTotal(a.timeframe, b.timeframe);
    TextTotal(a.sample, b.sample);
  }

  lemma BeforeTransitive(a: Window, b: Window, c: Window)
    requires Before(a, b) && Before(b, c)
    ensures Before(a, c)
  {
    if TextBefore(a.symbol, b.symbol) && TextBefore(b.symbol, c.symbol) { TextTransitive(a.symbol, b.symbol, c.symbol); }
    if TextBefore(a.timeframe, b.timeframe) && TextBefore(b.timeframe, c.timeframe) { TextTransitive(a.timeframe, b.timeframe, c.timeframe); }
    if TextBefore(a.sample, b.sample) && TextBefore(b.sample, c.sample) { TextTransitive(a.sample, b.sample, c.sample); }
  }

  predicate IsClaimed(claims: seq<Claim>, sample: string) {
    exists i :: 0 <= i < |claims| && claims[i].sample == sample
  }

  predicate Claimable(windows: seq<Window>, claims: seq<Claim>, now: int, i: nat) {
    i < |windows| && windows[i].market <= now && !IsClaimed(claims, windows[i].sample)
  }

  /** The row the query returns: the first claimable one in sort order. */
  ghost predicate Chosen(windows: seq<Window>, claims: seq<Claim>, now: int, i: nat) {
    && Claimable(windows, claims, now, i)
    && forall j: nat :: Claimable(windows, claims, now, j) && j != i ==> Before(windows[i], windows[j])
  }

  ghost predicate Scheduled(windows: seq<Window>) {
    forall i, j :: 0 <= i < j < |windows| ==> windows[i].sample != windows[j].sample
  }

  /** The scheduled window of a claim. */
  ghost predicate Names(windows: seq<Window>, c: Claim, w: Window) {
    w in windows && w.sample == c.sample
  }

  ghost predicate IsScheduled(windows: seq<Window>, c: Claim) {
    exists w :: Names(windows, c, w)
  }

  /** Claims are the beginning of the sorted schedule: in order, without gaps, each window once. */
  ghost predicate ClaimsArePrefix(windows: seq<Window>, claims: seq<Claim>) {
    && (forall i :: 0 <= i < |claims| ==> IsScheduled(windows, claims[i]))
    && (forall i, j, v, w :: 0 <= i < j < |claims| && Names(windows, claims[i], v) && Names(windows, claims[j], w) ==> Before(v, w))
    && (forall v, w :: v in windows && w in windows && Before(v, w) && IsClaimed(claims, w.sample) ==> IsClaimed(claims, v.sample))
  }

  /** The next claim extends the prefix by exactly the next window. */
  lemma ClaimKeepsPrefix(windows: seq<Window>, claims: seq<Claim>, now: int, i: nat, at: int)
    requires Scheduled(windows) && ClaimsArePrefix(windows, claims) && Chosen(windows, claims, now, i)
    ensures ClaimsArePrefix(windows, claims + [Claim(windows[i].sample, at)])
    ensures !IsClaimed(claims, windows[i].sample)
  {
    var next := Claim(windows[i].sample, at);
    var longer := claims + [next];
    assert Names(windows, next, windows[i]);
    forall k | 0 <= k < |longer|
      ensures IsScheduled(windows, longer[k])
    {
      assert k < |claims| ==> longer[k] == claims[k];
      assert k == |claims| ==> longer[k] == next;
    }
    forall sample
      ensures IsClaimed(longer, sample) <==> IsClaimed(claims, sample) || sample == windows[i].sample
    {
      ClaimedSnoc(claims, next, sample);
    }
    forall v | v in windows && Before(v, windows[i])
      ensures IsClaimed(claims, v.sample)
    {
      var j: nat :| j < |windows| && windows[j] == v;
      BeforeTotal(v, windows[i]);
      assert !Claimable(windows, claims, now, j) || j == i;
    }
    forall k, v, w | 0 <= k < |claims| && Names(windows, claims[k], v) && Names(windows, next, w)
      ensures Before(v, w)
    {
      assert w == windows[i] && IsClaimed(claims, v.sample);
      BeforeTotal(v, w);
      assert Before(w, v) ==> IsClaimed(claims, w.sample);
    }
  }

  lemma ClaimedSnoc(claims: seq<Claim>, c: Claim, sample: string)
    ensures IsClaimed(claims + [c], sample) <==> IsClaimed(claims, sample) || sample == c.sample
  {
    var longer := claims + [c];
    assert longer[|claims|] == c;
    if IsClaimed(claims, sample) {
      var i :| 0 <= i < |claims| && claims[i].sample == sample;
      assert longer[i].sample == sample;
    }
  }

  /** A prefix holds no window twice. */
  lemma NoWindowTwice(windows: seq<Window>, claims: seq<Claim>, i: nat, j: nat)
    requires Scheduled(windows) && ClaimsArePrefix(windows, claims) && i < j < |claims|
    ensures claims[i].sample != claims[j].sample
  {
    assert IsScheduled(windows, claims[j]);
    var w :| Names(windows, claims[j], w);
    if claims[i].sample == claims[j].sample {
      assert Names(windows, claims[i], w);
      BeforeTotal(w, w);
    }
  }

  /** `claim_next`: the scan behind LIMIT 1, and the insert. */
  method ClaimNext(windows: seq<Window>, claims: seq<Claim>, now: int) returns (claim: Option<Claim>, more: seq<Claim>)
    requires Scheduled(windows) && ClaimsArePrefix(windows, claims)
    ensures ClaimsArePrefix(windows, more)
    ensures claim.None? <==> forall i: nat :: !Claimable(windows, claims, now, i)
    ensures claim.None? ==> more == claims
    ensures claim.Some? ==> more == claims + [claim.value] && claim.value.claimedAt == now && !IsClaimed(claims, claim.value.sample)
    ensures claim.Some? ==> exists i: nat :: Chosen(windows, claims, now, i) && windows[i].sample == claim.value.sample
  {
    var best: Option<nat> := None;
    for n := 0 to |windows|
      invariant best.Some? ==> best.value < n && Claimable(windows, claims, now, best.value)
      invariant best.Some? ==> forall j: nat :: j < n && Claimable(windows, claims, now, j) && j != best.value ==>
                                 Before(windows[best.value], windows[j])
      invariant best.None? ==> forall j: nat :: j < n ==> !Claimable(windows, claims, now, j)
    {
      if Claimable(windows, claims, now, n) {
        if best.None? {
          best := Some(n);
        } else {
          BeforeTotal(windows[n], windows[best.value]);
          if Before(windows[n], windows[best.value]) {
            forall j: nat | j < n && Claimable(windows, claims, now, j) && j != best.value
              ensures Before(windows[n], windows[j])
            {
              BeforeTransitive(windows[n], windows[best.value], windows[j]);
            }
            best := Some(n);
          }
        }
      }
    }
    if best.None? {
      return None, claims;
    }
    assert Chosen(windows, claims, now, best.value);
    ClaimKeepsPrefix(windows, claims, now, best.value, now);
    claim := Some(Claim(windows[best.value].sample, now));
    more := claims + [claim.value];
  }
}
