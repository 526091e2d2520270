/**
 The timing of the ticker.  With the leeway set to four check periods, a refresh token that is
 about to expire gets four attempts at replacing it, all of them before it lapses.
 */
module RefreshSchedule {
  import opened Prelude
  import opened TokenProtocol
  import opened TokenStores

  // ------------------------------------------------------- the configuration

  const TWO_63: int := 0x8000_0000_0000_0000

  /** Go's 64-bit arithmetic on durations. */
  function Wrap64(x: int): int {
    (x + TWO_63) % (2 * TWO_63) - TWO_63
  }

  function GetRefreshCheckPeriod(seconds: int): int {
    Wrap64(seconds * NANOSECONDS)
  }

  function GetExpirationLeeway(seconds: int): int {
    Wrap64(4 * GetRefreshCheckPeriod(seconds))
  }

  /** The longest period, in seconds, whose leeway still fits a 64-bit duration: about 73 years. */
  const LONGEST_PERIOD: int := 2_305_843_009

  /** For a valid period the leeway is four periods exactly when neither duration overflows. */
  lemma LeewayIsFourPeriods(seconds: int)
    requires 0 < seconds < TWO_63
    ensures (GetRefreshCheckPeriod(seconds) == seconds * NANOSECONDS
          && GetExpirationLeeway(seconds) == 4 * seconds * NANOSECONDS) <==> seconds <= LONGEST_PERIOD
  {
    var period := seconds * NANOSECONDS;
    if seconds <= LONGEST_PERIOD {
      assert 0 < 4 * period < TWO_63;
      assert Wrap64(period) == period;
      assert Wrap64(4 * period) == 4 * period;
    } else {
      assert 4 * period >= TWO_63;
      assert Wrap64(4 * Wrap64(period)) < TWO_63;
    }
  }

  // -------------------------------------------------------------- the schedule

  lemma {:induction false} TicksAt(pair: TokenPair, start: int, period: int, leeway: int, inputs: seq<TickInput>,
                                   k: nat)
    requires k < |inputs|
    ensures Ticks(pair, start, period, leeway, inputs)[k]
         == TickAt(PairAfter(pair, start, period, leeway, inputs[..k]), start + k * period, leeway, inputs[k])
  {
    var n := |inputs| - 1;
    if k < n {
      assert inputs[..n][..k] == inputs[..k];
      TicksAt(pair, start, period, leeway, inputs[..n], k);
    }
  }

  lemma {:induction false} AcceptAllKeepsRefresh(pair: TokenPair, responses: seq<RenkuResponse>)
    requires !BringsRefresh(responses)
    ensures AcceptAll(pair, responses).refresh == pair.refresh
  {
    if responses != [] {
      var n := |responses| - 1;
      assert responses[n].refresh.text == "";
      assert forall k | 0 <= k < n :: responses[..n][k] == responses[k];
      AcceptAllKeepsRefresh(pair, responses[..n]);
    }
  }

  ghost predicate Replaced(r: TickRecord) {
    r.replacedByTick || r.replacedByOthers
  }

  /** A refresh token is in the store at the next tick again unless it was replaced in between. */
  lemma TokenStays(pair: TokenPair, start: int, period: int, leeway: int, inputs: seq<TickInput>, k: nat)
    requires k + 1 < |inputs|
    requires !Replaced(Ticks(pair, start, period, leeway, inputs)[k])
    ensures Ticks(pair, start, period, leeway, inputs)[k + 1].token
      == Ticks(pair, start, period, leeway, inputs)[k].token
  {
    TicksAt(pair, start, period, leeway, inputs, k);
    TicksAt(pair, start, period, leeway, inputs, k + 1);
    assert inputs[..k + 1][..k] == inputs[..k];
    var before := PairAfter(pair, start, period, leeway, inputs[..k]);
    var at := start + k * period;
    var accepted := IsJwtExpired(before.refresh, at, leeway) && inputs[k].own.Some?;
    var own := if accepted then AcceptRenku(before, inputs[k].own.value) else before;
    AcceptAllKeepsRefresh(own, inputs[k].others);
  }

  /** From tick m to tick n the store's refresh token is not replaced. */
  ghost predicate KeptFrom(records: seq<TickRecord>, m: nat, n: nat)
    requires m <= n < |records|
  {
    forall k | m <= k < n :: !Replaced(records[k])
  }

  lemma {:induction false} SameToken(pair: TokenPair, start: int, period: int, leeway: int, inputs: seq<TickInput>,
                                     m: nat, n: nat)
    requires m <= n < |inputs| && KeptFrom(Ticks(pair, start, period, leeway, inputs), m, n)
    ensures Ticks(pair, start, period, leeway, inputs)[n].token == Ticks(pair, start, period, leeway, inputs)[m].token
    decreases n - m
  {
    if m < n {
      TokenStays(pair, start, period, leeway, inputs, n - 1);
      SameToken(pair, start, period, leeway, inputs, m, n - 1);
    }
  }

  /** A token with an expiry is attempted at a tick exactly when it expires within the leeway. */
  lemma AttemptedIff(pair: TokenPair, start: int, period: int, leeway: int, inputs: seq<TickInput>, m: nat, k: nat)
    requires m <= k < |inputs| && KeptFrom(Ticks(pair, start, period, leeway, inputs), m, k)
    requires Ticks(pair, start, period, leeway, inputs)[m].token.claims.Expires?
    ensures Ticks(pair, start, period, leeway, inputs)[k].at == start + k * period
    ensures Ticks(pair, start, period, leeway, inputs)[k].attempted
       <==> Ticks(pair, start, period, leeway, inputs)[m].token.claims.at <= start + k * period + leeway
  {
    SameToken(pair, start, period, leeway, inputs, m, k);
    TicksAt(pair, start, period, leeway, inputs, k);
  }

  lemma TicksApart(period: int, j: int, k: int)
    requires 0 < period
    ensures j < k ==> j * period + period <= k * period
    ensures j + 3 < k ==> j * period + 4 * period <= k * period
    ensures (j + 3) * period == j * period + 3 * period && (j - 1) * period == j * period - period
  {
    if j < k {
      TimesAtLeast(period, k - j - 1);
      assert k * period == j * period + period + (k - j - 1) * period;
    }
    if j + 3 < k {
      TimesAtLeast(period, k - j - 4);
      assert k * period == j * period + 4 * period + (k - j - 4) * period;
    }
  }

  lemma TimesAtLeast(period: int, factor: int)
    requires 0 < period && 0 <= factor
    ensures 0 <= factor * period
  {
  }

  /** Where a flag that is down at m and up at n goes up first. */
  lemma FirstRise(flags: seq<bool>, m: nat, n: nat) returns (f: nat)
    requires m < n < |flags| && !flags[m] && flags[n]
    ensures m < f <= n && flags[f] && !flags[f - 1]
  {
    f := m + 1;
    while !flags[f]
      invariant m < f <= n && !flags[f - 1]
      decreases n - f
    {
      f := f + 1;
    }
  }

  /** The first flagged tick and the three after it all come before the expiry. */
  lemma FlaggedInTime(pair: TokenPair, start: int, period: int, inputs: seq<TickInput>, m: nat, l: nat) returns (f: nat)
    requires 0 < period && m <= l < |inputs|
    requires var records := Ticks(pair, start, period, 4 * period, inputs);
      && KeptFrom(records, m, l) && !records[m].attempted
      && records[l].token.claims.Expires? && records[l].token.claims.at <= records[l].at + period
    ensures var records := Ticks(pair, start, period, 4 * period, inputs);
      && m < f && f + 3 <= l && !records[f - 1].attempted
      && records[m].token == records[l].token
      && records[m].token.claims.at <= start + f * period + 4 * period
      && start + (f + 3) * period < records[m].token.claims.at
  {
    var records := Ticks(pair, start, period, 4 * period, inputs);
    SameToken(pair, start, period, 4 * period, inputs, m, l);
    AttemptedIff(pair, start, period, 4 * period, inputs, m, l);
    f := FirstRise(seq(|records|, k requires 0 <= k < |records| => records[k].attempted), m, l);
    AttemptedIff(pair, start, period, 4 * period, inputs, m, f);
    AttemptedIff(pair, start, period, 4 * period, inputs, m, f - 1);
    TicksApart(period, f, l);
    if l < f + 3 {
      TicksApart(period, l, f + 3);
    }
  }

  /**
   Four attempts.  Ticks are one period apart and the leeway is four periods.  Suppose the refresh
   token in the store at tick m was not yet flagged, is still there at tick l, and lapses before tick
   l + 1 or at it, whatever happens to it after tick l.  Then it was first flagged at some tick f
   after m; the ticks f to f + 3, of which l may be the last, all lie before the expiry, and each
   attempted a refresh.
   */
  lemma LapseNeedsFourAttempts(seconds: int, pair: TokenPair, start: int, inputs: seq<TickInput>, m: nat, l: nat)
    returns (f: nat)
    requires 0 < seconds <= LONGEST_PERIOD && m <= l < |inputs|
    requires var records := Ticks(pair, start, GetRefreshCheckPeriod(seconds), GetExpirationLeeway(seconds), inputs);
      && (forall k | m <= k < l :: !records[k].replacedByTick && !records[k].replacedByOthers)
      && !records[m].attempted
      && records[l].token.claims.Expires?
      && records[l].token.claims.at <= records[l].at + GetRefreshCheckPeriod(seconds)
    ensures var records := Ticks(pair, start, GetRefreshCheckPeriod(seconds), GetExpirationLeeway(seconds), inputs);
      && m < f && f + 3 <= l
      && !records[f - 1].attempted
      && (forall k | f <= k <= f + 3 ::
            && records[k].attempted
            && records[k].token == records[l].token
            && records[k].at < records[l].token.claims.at)
  {
    LeewayIsFourPeriods(seconds);
    var period := GetRefreshCheckPeriod(seconds);
    var records := Ticks(pair, start, period, 4 * period, inputs);
    f := FlaggedInTime(pair, start, period, inputs, m, l);
    forall k | f <= k <= f + 3
      ensures records[k].attempted && records[k].token == records[l].token
      ensures records[k].at < records[l].token.claims.at
    {
      AttemptedIff(pair, start, period, 4 * period, inputs, m, k);
      SameToken(pair, start, period, 4 * period, inputs, m, k);
      TicksApart(period, f, k);
      TicksApart(period, k, f + 3);
    }
  }

  /** When the lapsed token is still there at tick n, all four attempts have failed to replace it. */
  lemma LapseNeedsFourFailures(seconds: int, pair: TokenPair, start: int, inputs: seq<TickInput>, m: nat, n: nat)
    returns (f: nat)
    requires 0 < seconds <= LONGEST_PERIOD && m < n < |inputs|
    requires var records := Ticks(pair, start, GetRefreshCheckPeriod(seconds), GetExpirationLeeway(seconds), inputs);
      && (forall k | m <= k < n :: !records[k].replacedByTick && !records[k].replacedByOthers)
      && !records[m].attempted
      && records[n].token.claims.Expires?
      && records[n].token.claims.at <= records[n].at
    ensures var records := Ticks(pair, start, GetRefreshCheckPeriod(seconds), GetExpirationLeeway(seconds), inputs);
      && m < f && f + 3 < n
      && !records[f - 1].attempted
      && (forall k | f <= k <= f + 3 ::
            && records[k].attempted && !records[k].replacedByTick && !records[k].replacedByOthers
            && records[k].token == records[n].token
            && records[k].at < records[n].token.claims.at)
  {
    LeewayIsFourPeriods(seconds);
    var period := GetRefreshCheckPeriod(seconds);
    TokenStays(pair, start, period, 4 * period, inputs, n - 1);
    TicksAt(pair, start, period, 4 * period, inputs, n);
    TicksAt(pair, start, period, 4 * period, inputs, n - 1);
    TicksApart(period, n, n);
    f := LapseNeedsFourAttempts(seconds, pair, start, inputs, m, n - 1);
  }
}
