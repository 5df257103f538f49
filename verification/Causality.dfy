/** What a daily run may depend on.  Two runs whose closes agree before some bar cannot be told
    apart up to that bar, provided the window clamp is the same for both; and the clamp,
    which looks at the length of the whole series, is exactly what can break this. */
module Causality {
  import opened RealMath
  import opened StrategySpecs
  import opened DailyEngine
  import opened DailyRuns

  /** Bars 1 .. k-1 are settled by the first k closes, and so is the target at bar k. */
  lemma {:induction false} SettledByPrefix(spec: StrategySpec, sx: seq<real>, xs: seq<real>, sy: seq<real>,
        ys: seq<real>, k: nat, i: nat)
    requires Positive(xs) && |sx| == |xs| && Positive(ys) && |sy| == |ys|
    requires 1 <= k <= |xs| && k <= |ys| && xs[..k] == ys[..k]
    requires i <= k && i < |xs| && i < |ys|
    requires forall j :: 1 <= j <= i ==> sx[j] == sy[j]
    ensures var a, b := After(spec, sx, xs, i), After(spec, sy, ys, i);
            && a.previous == b.previous && a.trades == b.trades
            && a.peak == b.peak && a.stoppedUntil == b.stoppedUntil
            && (i < k ==> a == b)
  {
    hide PeriodReturn, Grow, StopCheck;
    assert forall j :: 0 <= j < k ==> xs[j] == xs[..k][j] == ys[..k][j] == ys[j];
    if i > 0 {
      SettledByPrefix(spec, sx, xs, sy, ys, k, i - 1);
      if i < k {
        assert AssetReturn(xs, i) == AssetReturn(ys, i);
      }
    }
  }

  /** Equal windows and equal closes before a bar give equal signals up to that bar. */
  lemma SameSignals(spec: StrategySpec, fast: nat, slow: nat, xs: seq<real>, ys: seq<real>, k: nat, i: nat)
    requires 0 < fast && 0 < slow
    requires k <= |xs| && k <= |ys| && xs[..k] == ys[..k]
    requires i <= k && i < |xs| && i < |ys|
    ensures Signals(spec, fast, slow, xs)[i] == Signals(spec, fast, slow, ys)[i]
  {
    hide DailySignal;
    assert xs[..i] == xs[..k][..i] && ys[..i] == ys[..k][..i];
  }

  /** The slow window of a run over n bars: clamped to a given count, or to its own length. */
  function Window(spec: StrategySpec, n: nat, minCount: nat): nat {
    EffectiveSlow(spec.slowWindow, if minCount == 0 then n else minCount)
  }

  lemma RunSettledByPrefix(spec: StrategySpec, xs: seq<real>, mx: nat, ys: seq<real>, my: nat, k: nat, i: nat)
    requires spec.Valid() && Positive(xs) && Positive(ys)
    requires Window(spec, |xs|, mx) == Window(spec, |ys|, my)
    requires 1 <= k <= |xs| && k <= |ys| && xs[..k] == ys[..k]
    requires i <= k && i < |xs| && i < |ys|
    ensures var a := After(spec, RunSignals(spec, xs, mx), xs, i);
            var b := After(spec, RunSignals(spec, ys, my), ys, i);
            a.previous == b.previous && a.trades == b.trades && (i < k ==> a == b)
  {
    hide After, Signals;
    var slow := Window(spec, |xs|, mx);
    var fast := EffectiveFast(spec.fastWindow, slow);
    forall j | 1 <= j <= i
      ensures Signals(spec, fast, slow, xs)[j] == Signals(spec, fast, slow, ys)[j]
    {
      SameSignals(spec, fast, slow, xs, ys, k, j);
    }
    SettledByPrefix(spec, Signals(spec, fast, slow, xs), xs, Signals(spec, fast, slow, ys), ys, k, i);
  }

  /** No look-ahead: if two series run with the same window, each clamped to its own length or to a
      count shared with other assets, agree on their first k closes, the finished runs report the
      same positions and the same log up to bar k ... */
  lemma NoLookAhead(spec: StrategySpec, xs: seq<real>, mx: nat, ys: seq<real>, my: nat, k: nat, i: nat)
    requires spec.Valid() && Positive(xs) && Positive(ys)
    requires Window(spec, |xs|, mx) == Window(spec, |ys|, my)
    requires 1 <= k <= |xs| && k <= |ys| && xs[..k] == ys[..k]
    requires i <= k && i < |xs| && i < |ys|
    ensures var a, b := Run(spec, xs, mx).trades, Run(spec, ys, my).trades;
            Replay(a, i) == Replay(b, i) && UpTo(a, i) == UpTo(b, i)
  {
    hide After, RunSignals, Window, Replay, UpTo, Positive;
    RunSettledByPrefix(spec, xs, mx, ys, my, k, i);
    LogAnswersForEveryBar(spec, RunSignals(spec, xs, mx), xs, i, |xs| - 1);
    LogAnswersForEveryBar(spec, RunSignals(spec, ys, my), ys, i, |ys| - 1);
  }

  /** ... and the same returns and equity before bar k. */
  lemma NoLookAheadInReturns(spec: StrategySpec, xs: seq<real>, mx: nat, ys: seq<real>, my: nat, k: nat)
    requires spec.Valid() && Positive(xs) && Positive(ys)
    requires Window(spec, |xs|, mx) == Window(spec, |ys|, my)
    requires 1 <= k <= |xs| && k <= |ys| && xs[..k] == ys[..k]
    ensures var a, b := Run(spec, xs, mx), Run(spec, ys, my);
            a.dailyReturns[..k - 1] == b.dailyReturns[..k - 1] && a.equity[..k - 1] == b.equity[..k - 1]
  {
    hide After, RunSignals, Window, Positive;
    RunSettledByPrefix(spec, xs, mx, ys, my, k, k - 1);
    LaterExtendsEarlier(spec, RunSignals(spec, xs, mx), xs, k - 1, |xs| - 1);
    LaterExtendsEarlier(spec, RunSignals(spec, ys, my), ys, k - 1, |ys| - 1);
  }

  /** Two bars more than the requested window and the clamp is inactive. */
  lemma LongHistoryIsUnclamped(spec: StrategySpec, n: nat)
    requires spec.Valid() && n >= spec.slowWindow + 2
    ensures Window(spec, n, 0) == spec.slowWindow
    ensures EffectiveFast(spec.fastWindow, spec.slowWindow) == spec.fastWindow
  {
  }

  /** So runs over such histories, whatever their lengths, never look ahead. */
  lemma LongHistoriesNeverLookAhead(spec: StrategySpec, xs: seq<real>, ys: seq<real>, k: nat, i: nat)
    requires spec.Valid() && Positive(xs) && Positive(ys)
    requires |xs| >= spec.slowWindow + 2 && |ys| >= spec.slowWindow + 2
    requires 1 <= k <= |xs| && k <= |ys| && xs[..k] == ys[..k] && i <= k && i < |xs| && i < |ys|
    ensures var a, b := Run(spec, xs, 0), Run(spec, ys, 0);
            && Replay(a.trades, i) == Replay(b.trades, i) && UpTo(a.trades, i) == UpTo(b.trades, i)
            && a.dailyReturns[..k - 1] == b.dailyReturns[..k - 1] && a.equity[..k - 1] == b.equity[..k - 1]
  {
    hide Run, Replay, UpTo, Window;
    LongHistoryIsUnclamped(spec, |xs|);
    LongHistoryIsUnclamped(spec, |ys|);
    NoLookAhead(spec, xs, 0, ys, 0, k, i);
    NoLookAheadInReturns(spec, xs, 0, ys, 0, k);
  }

  // ------------------------------------------- when more history may rewrite a run

  /** Appending bars never changes a target already taken, for any strategy with these windows. */
  ghost predicate PrefixStable(fastWindow: nat, slowWindow: nat, n: nat, m: nat)
    requires n <= m
  {
    forall spec: StrategySpec, ys: seq<real>, i: nat
      {:trigger Target(spec, ys, i)} ::
      (spec.Valid() && spec.fastWindow == fastWindow && spec.slowWindow == slowWindow
       && Positive(ys) && |ys| == m && i < n) ==> Target(spec, ys[..n], i) == Target(spec, ys, i)
  }

  /** A flat series of ones with a single two at index p. */
  function Spike(length: nat, p: nat): (closes: seq<real>)
    ensures |closes| == length && Positive(closes)
  {
    seq(length, i => if i == p then 2.0 else 1.0)
  }

  lemma {:induction false} SumOnes(xs: seq<real>)
    requires forall i :: 0 <= i < |xs| ==> xs[i] == 1.0
    ensures Sum(xs) == |xs| as real
  {
    if xs != [] {
      SumOnes(xs[..|xs| - 1]);
    }
  }

  lemma SpikeAverage(length: nat, p: nat, window: nat)
    requires 0 < window <= p + 1 <= length
    ensures MovingAverage(Spike(length, p)[..p + 1], window) == 1.0 + 1.0 / window as real
  {
    var history := Spike(length, p)[..p + 1];
    var tail := LastN(history, window);
    SumOnes(tail[..window - 1]);
    assert tail[window - 1] == 2.0;
    assert Sum(tail) == (window - 1) as real + 2.0;
    Quotient(window as real);
  }

  lemma Quotient(w: real)
    requires w > 0.0
    ensures (w + 1.0) / w == 1.0 + 1.0 / w
  {
  }

  /** A momentum strategy without a stop that trades on any rise. */
  function Eager(fastWindow: nat, slowWindow: nat): StrategySpec {
    StrategySpec(Daily, Momentum, ["BTC", "ETH"], fastWindow, slowWindow, 0.0, 0.0, 1, false, 1.0, 0.0, 0.0, None)
  }

  /** On a spike in its last close, the eager strategy goes long as soon as its slow window fills. */
  lemma EagerBuysSpike(fastWindow: nat, slowWindow: nat, length: nat, fast: nat, slow: nat)
    requires 0 < fast < slow < length
    ensures DailySignal(Eager(fastWindow, slowWindow), Spike(length, slow - 1)[..slow], fast, slow) == 1.0
  {
    SpikeAverage(length, slow - 1, fast);
    SpikeAverage(length, slow - 1, slow);
    var f, s := 1.0 + 1.0 / fast as real, 1.0 + 1.0 / slow as real;
    ReciprocalsOrdered(fast as real, slow as real);
    assert f > s > 0.0;
    assert (f - s) / s > 0.0;
  }

  lemma ReciprocalsOrdered(a: real, b: real)
    requires 0.0 < a < b
    ensures 1.0 / a > 1.0 / b > 0.0
  {
    assert 1.0 / a == b / (a * b) && 1.0 / b == a / (a * b);
  }

  /** The eager strategy has no stop: it takes its signal. */
  lemma EagerPosition(fastWindow: nat, slowWindow: nat, closes: seq<real>, minCount: nat, i: nat)
    requires Eager(fastWindow, slowWindow).Valid() && Positive(closes) && 1 <= i < |closes|
    ensures var spec := Eager(fastWindow, slowWindow);
            After(spec, RunSignals(spec, closes, minCount), closes, i).previous == RunSignals(spec, closes, minCount)[i]
  {
    hide Signals, PeriodReturn, Grow;
    var spec := Eager(fastWindow, slowWindow);
    NeverStopped(spec, RunSignals(spec, closes, minCount), closes, i);
  }

  /** Two clamps that differ show on a spike in the shorter window: only that run buys it. */
  lemma ClampsShow(fastWindow: nat, slowWindow: nat, xs: seq<real>, mx: nat, ys: seq<real>, my: nat)
    requires 2 <= fastWindow <= 120 && fastWindow < slowWindow <= 250
    requires var spec := Eager(fastWindow, slowWindow);
             var short := Window(spec, |xs|, mx);
             && short < Window(spec, |ys|, my) && short < |xs| && short < |ys|
             && xs == Spike(|xs|, short - 1) && Positive(ys)
    ensures var spec := Eager(fastWindow, slowWindow);
            var short := Window(spec, |xs|, mx);
            && After(spec, RunSignals(spec, xs, mx), xs, short).previous == 1.0
            && After(spec, RunSignals(spec, ys, my), ys, short).previous == 0.0
  {
    hide After, Spike;
    var spec := Eager(fastWindow, slowWindow);
    var short := Window(spec, |xs|, mx);
    EagerPosition(fastWindow, slowWindow, xs, mx, short);
    EagerPosition(fastWindow, slowWindow, ys, my, short);
    EagerBuysSpike(fastWindow, slowWindow, |xs|, EffectiveFast(fastWindow, short), short);
  }

  /** Exactly when appending history is harmless: when both lengths clamp to the same slow
      window.  A caller can check this before the run. */
  lemma PrefixStableIffSameWindow(fastWindow: nat, slowWindow: nat, n: nat, m: nat)
    requires 2 <= fastWindow <= 120 && fastWindow < slowWindow <= 250
    requires 4 <= n <= m
    ensures PrefixStable(fastWindow, slowWindow, n, m)
       <==> EffectiveSlow(slowWindow, n) == EffectiveSlow(slowWindow, m)
  {
    hide After, RunSignals;
    var short, long := EffectiveSlow(slowWindow, n), EffectiveSlow(slowWindow, m);
    if short == long {
      forall spec: StrategySpec, ys: seq<real>, i: nat
        {:trigger Target(spec, ys, i)} |
        spec.Valid() && spec.fastWindow == fastWindow && spec.slowWindow == slowWindow
        && Positive(ys) && |ys| == m && i < n
        ensures Target(spec, ys[..n], i) == Target(spec, ys, i)
      {
        RunSettledByPrefix(spec, ys[..n], 0, ys, 0, n, i);
      }
    } else {
      var spec, ys := Eager(fastWindow, slowWindow), Spike(m, short - 1);
      var xs := ys[..n];
      assert xs == Spike(n, short - 1);
      ClampsShow(fastWindow, slowWindow, xs, 0, ys, 0);
      assert Target(spec, xs, short) != Target(spec, ys, short);
    }
  }

  /** The count a run is clamped to never shows, for any strategy with these windows. */
  ghost predicate ClampHidden(fastWindow: nat, slowWindow: nat, n: nat, p: nat, q: nat) {
    forall spec: StrategySpec, closes: seq<real> ::
      spec.Valid() && spec.fastWindow == fastWindow && spec.slowWindow == slowWindow
      && Positive(closes) && |closes| == n ==>
        Run(spec, closes, p).trades == Run(spec, closes, q).trades
  }

  lemma DifferentTargetsDifferentLogs(spec: StrategySpec, closes: seq<real>, p: nat, q: nat, i: nat)
    requires spec.Valid() && Positive(closes) && i < |closes|
    requires After(spec, RunSignals(spec, closes, p), closes, i).previous
          != After(spec, RunSignals(spec, closes, q), closes, i).previous
    ensures Run(spec, closes, p).trades != Run(spec, closes, q).trades
  {
    hide After, RunSignals;
    LogAnswersForEveryBar(spec, RunSignals(spec, closes, p), closes, i, |closes| - 1);
    LogAnswersForEveryBar(spec, RunSignals(spec, closes, q), closes, i, |closes| - 1);
  }

  lemma SpikeShowsClamp(fastWindow: nat, slowWindow: nat, n: nat, p: nat, q: nat)
    requires 2 <= fastWindow <= 120 && fastWindow < slowWindow <= 250
    requires 4 <= p <= n && 4 <= q <= n && EffectiveSlow(slowWindow, p) < EffectiveSlow(slowWindow, q)
    ensures var spec, closes := Eager(fastWindow, slowWindow), Spike(n, EffectiveSlow(slowWindow, p) - 1);
            && spec.Valid()
            && Run(spec, closes, p).trades != Run(spec, closes, q).trades
  {
    hide After, RunSignals, Run, Spike;
    var closes := Spike(n, EffectiveSlow(slowWindow, p) - 1);
    ClampsShow(fastWindow, slowWindow, closes, p, closes, q);
    DifferentTargetsDifferentLogs(Eager(fastWindow, slowWindow), closes, p, q, EffectiveSlow(slowWindow, p));
  }

  /** Exactly when a run over n bars does not show which of two counts it was clamped to. */
  lemma ClampHiddenIff(fastWindow: nat, slowWindow: nat, n: nat, p: nat, q: nat)
    requires 2 <= fastWindow <= 120 && fastWindow < slowWindow <= 250
    requires 4 <= p <= n && 4 <= q <= n
    ensures ClampHidden(fastWindow, slowWindow, n, p, q)
       <==> EffectiveSlow(slowWindow, p) == EffectiveSlow(slowWindow, q)
  {
    hide After, Spike;
    if EffectiveSlow(slowWindow, p) < EffectiveSlow(slowWindow, q) {
      SpikeShowsClamp(fastWindow, slowWindow, n, p, q);
    } else if EffectiveSlow(slowWindow, p) > EffectiveSlow(slowWindow, q) {
      SpikeShowsClamp(fastWindow, slowWindow, n, q, p);
    }
  }
}
