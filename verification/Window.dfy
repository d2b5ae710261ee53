/** The receive-window controller over whole runs: bounds of the adaptive mode, the hand-over from
    burst to adaptation, the memory of each link, and the freeze. */
module Window {
  import opened Machine
  import opened Worker
  import opened Action

  // ------------------------------------------------------ adaptive samples

  /** The window after a run of adaptive samples. */
  function AdaptRun(w: u16, cws: seq<nat>, t: int, p: int): u16 {
    if cws == [] then w else AdaptWindow(AdaptRun(w, cws[..|cws| - 1], t, p), cws[|cws| - 1], t, p)
  }

  lemma FloorMeans(x: nat, k: nat)
    requires k > 0
    ensures k * (x / k) <= x < k * (x / k + 1)
  {
    assert x == k * (x / k) + x % k;
    assert k * (x / k + 1) == k * (x / k) + k;
  }

  /** Quotients that fit 16 bits, rounded down. */
  lemma Hundredths(x: nat)
    requires x < 100 * TWO16
    ensures 100 * ToU16(x / 100) <= x < 100 * (ToU16(x / 100) + 1)
  {
    Fits(x / 100);
  }

  lemma FourHundredths(x: nat)
    requires x < 400 * TWO16
    ensures 400 * ToU16(x / 400) <= x < 400 * (ToU16(x / 400) + 1)
  {
    Fits(x / 400);
  }

  lemma ShrunkRange(w: u16, p: nat)
    requires p <= 400
    ensures 0 <= w * (400 - p) < 400 * TWO16
  {
    MulLe(400 - p, 400, w);
    MulLe(0, 400 - p, w);
  }

  /** What one adaptive step does: above the threshold share it grows by the pace, below 70 percent it
      shrinks by a quarter of the pace, each rounded down, and otherwise it stays. */
  lemma AdaptStepMeans(w: u16, cw: nat, t: int, p: int)
    requires 0 <= p <= 400
    ensures var w' := AdaptWindow(w, cw, t, p);
            if 100 * cw > t * w then w * (100 + p) < 100 * TWO16 ==> 100 * w' <= w * (100 + p) < 100 * (w' + 1)
            else if 10 * cw < 7 * w then 400 * w' <= w * (400 - p) < 400 * (w' + 1)
            else w' == w
  {
    var grown, shrunk := w * (100 + p), w * (400 - p);
    ShrunkRange(w, p);
    FourHundredths(shrunk);
    if 100 * cw > t * w && grown < 100 * TWO16 { Hundredths(grown); }
  }

  /** Every sample of a run is above the threshold share of the window it meets, and the grown window
      fits. */
  ghost predicate AllAbove(w: u16, cws: seq<nat>, t: int, p: int) {
    forall i :: 0 <= i < |cws| ==> Above(AdaptRun(w, cws[..i], t, p), cws[i], t, p)
  }

  predicate Above(w: u16, cw: nat, t: int, p: int) { 100 * cw > t * w && w * (100 + p) < 100 * TWO16 }

  /** Every sample of a run is below 70 percent of the window it meets, and not above the threshold. */
  ghost predicate AllBelow(w: u16, cws: seq<nat>, t: int, p: int) {
    forall i :: 0 <= i < |cws| ==> Below(AdaptRun(w, cws[..i], t, p), cws[i], t)
  }

  predicate Below(w: u16, cw: nat, t: int) { 100 * cw <= t * w && 10 * cw < 7 * w }

  lemma StepGrows(w: u16, cw: nat, t: int, p: int)
    requires 0 <= p <= 400 && Above(w, cw, t, p) && w * p >= 100
    ensures AdaptWindow(w, cw, t, p) >= w + 1
  {
    AdaptStepMeans(w, cw, t, p);
    assert w * (100 + p) == 100 * w + w * p;
  }

  lemma StepShrinks(w: u16, cw: nat, t: int, p: int)
    requires 0 < p <= 400 && Below(w, cw, t)
    ensures AdaptWindow(w, cw, t, p) <= w - 1
  {
    AdaptStepMeans(w, cw, t, p);
    assert w * (400 - p) == 400 * w - w * p;
    assert w * p >= w by { MulLe(1, p, w); }
  }

  lemma GrowsFrom(w: u16, v: u16, cw: nat, t: int, p: int)
    requires 0 <= p <= 400 && w * p >= 100 && w <= v && Above(v, cw, t, p)
    ensures AdaptWindow(v, cw, t, p) >= v + 1
  {
    MulLe(w, v, p);
    StepGrows(v, cw, t, p);
  }

  lemma AboveBefore(w: u16, cws: seq<nat>, t: int, p: int)
    requires cws != [] && AllAbove(w, cws, t, p)
    ensures var n := |cws| - 1; AllAbove(w, cws[..n], t, p) && Above(AdaptRun(w, cws[..n], t, p), cws[n], t, p)
  {
    var n := |cws| - 1;
    forall i | 0 <= i < n ensures Above(AdaptRun(w, cws[..n][..i], t, p), cws[..n][i], t, p) {
      assert cws[..n][..i] == cws[..i];
    }
  }

  lemma BelowBefore(w: u16, cws: seq<nat>, t: int, p: int)
    requires cws != [] && AllBelow(w, cws, t, p)
    ensures var n := |cws| - 1; AllBelow(w, cws[..n], t, p) && Below(AdaptRun(w, cws[..n], t, p), cws[n], t)
  {
    var n := |cws| - 1;
    forall i | 0 <= i < n ensures Below(AdaptRun(w, cws[..n][..i], t, p), cws[..n][i], t) {
      assert cws[..n][..i] == cws[..i];
    }
  }

  /** Samples above the threshold share make the window rise with every sample. */
  lemma {:induction false} AdaptGrows(w: u16, cws: seq<nat>, t: int, p: int)
    requires 0 <= p <= 400 && w * p >= 100 && AllAbove(w, cws, t, p)
    ensures AdaptRun(w, cws, t, p) >= w + |cws|
  {
    if cws != [] {
      var n := |cws| - 1;
      AboveBefore(w, cws, t, p);
      AdaptGrows(w, cws[..n], t, p);
      GrowsFrom(w, AdaptRun(w, cws[..n], t, p), cws[n], t, p);
    }
  }

  /** Samples below 70 percent make it fall with every sample. */
  lemma {:induction false} AdaptShrinks(w: u16, cws: seq<nat>, t: int, p: int)
    requires 0 < p <= 400 && AllBelow(w, cws, t, p)
    ensures AdaptRun(w, cws, t, p) <= w - |cws|
  {
    if cws != [] {
      var n := |cws| - 1;
      BelowBefore(w, cws, t, p);
      AdaptShrinks(w, cws[..n], t, p);
      StepShrinks(AdaptRun(w, cws[..n], t, p), cws[n], t, p);
    }
  }

  lemma GrowthBounded(w: nat, cw: nat, hi: nat, t: nat, p: nat)
    requires t > 0 && cw <= hi && 100 * cw > t * w
    ensures w <= w * (100 + p) / 100 <= hi * (100 + p) / t
  {
    var w' := w * (100 + p) / 100;
    assert w * (100 + p) >= w * 100;
    calc {
      100 * (w' * t);
    == (100 * w') * t;
    <= { assert 100 * w' <= w * (100 + p); MulLe(100 * w', w * (100 + p), t); }
      (w * (100 + p)) * t;
    == (t * w) * (100 + p);
    <= { MulLe(t * w, 100 * hi, 100 + p); }
      (100 * hi) * (100 + p);
    == 100 * (hi * (100 + p));
    }
    DivLe(w', hi * (100 + p), t);
  }

  /** A shrinking step does not undershoot the sample, if the pace suits the threshold. */
  lemma ShrinkBounded(w: nat, cw: nat, t: nat, p: nat)
    requires p <= 120 || p <= 400 - 4 * t
    requires 100 * cw <= t * w && 10 * cw < 7 * w && p <= 400
    ensures cw <= w * (400 - p) / 400 <= w
  {
    var x := (400 - p) * w;
    assert w * (400 - p) == x;
    assert cw * 400 <= x by {
      if p <= 120 {
        MulLe(280, 400 - p, w);
      } else {
        MulLe(4 * t, 400 - p, w);
        assert (4 * t) * w == 4 * (t * w);
      }
    }
    assert x <= 400 * w by { MulLe(400 - p, 400, w); }
    DivLe(cw, x, 400);
  }

  lemma Fits(x: nat)
    requires x < TWO16
    ensures ToU16(x) == x
  {}

  predicate Suits(t: int, p: int) { p <= Max(120, 400 - 4 * t) }

  lemma AdaptStepBounded(w: u16, cw: nat, t: int, p: int, lo: nat, hi: nat)
    requires t > 0 && 0 <= p <= 400 && Suits(t, p) && lo <= cw <= hi
    requires hi * (100 + p) / t < TWO16
    ensures Min(w, lo) <= AdaptWindow(w, cw, t, p) <= Max(w, hi * (100 + p) / t)
  {
    if 100 * cw > t * w {
      GrowthBounded(w, cw, hi, t, p);
      Fits(w * (100 + p) / 100);
    } else if 10 * cw < 7 * w {
      ShrinkBounded(w, cw, t, p);
      Fits(w * (400 - p) / 400);
    }
  }

  /** Over any run of adaptive samples between `lo` and `hi`, with a positive threshold and a pace
      of at most 1.2 (or one small enough for the threshold), the window stays between the smaller
      of its start and `lo` and the larger of its start and `hi * (1 + pace) / threshold`; so it
      never leaves 16 bits when that bound fits. */
  lemma {:induction false} AdaptBounded(w: u16, cws: seq<nat>, t: int, p: int, lo: nat, hi: nat)
    requires t > 0 && 0 <= p <= 400 && Suits(t, p) && hi * (100 + p) / t < TWO16
    requires forall cw :: cw in cws ==> lo <= cw <= hi
    ensures Min(w, lo) <= AdaptRun(w, cws, t, p) <= Max(w, hi * (100 + p) / t)
  {
    if cws != [] {
      var n := |cws| - 1;
      assert forall cw :: cw in cws[..n] ==> cw in cws;
      AdaptBounded(w, cws[..n], t, p, lo, hi);
      assert cws[n] in cws;
      AdaptStepBounded(AdaptRun(w, cws[..n], t, p), cws[n], t, p, lo, hi);
    }
  }

  lemma GrowthNotBelow(w: nat, p: nat)
    ensures w <= w * (100 + p) / 100
  {
    MulLe(100, 100 + p, w);
  }

  lemma StepNotBelow(w: u16, cw: nat, t: int, p: int)
    requires t > 0 && 0 <= p <= 400 && Suits(t, p) && w * (100 + p) / 100 < TWO16
    ensures Min(w, cw) <= AdaptWindow(w, cw, t, p)
  {
    if 100 * cw > t * w {
      GrowthNotBelow(w, p);
      Fits(w * (100 + p) / 100);
    } else if 10 * cw < 7 * w {
      ShrinkBounded(w, cw, t, p);
      Fits(w * (400 - p) / 400);
    }
  }

  ghost predicate NeverUndershoots(t: int, p: int) {
    forall w: u16, cw: nat :: w * (100 + p) / 100 < TWO16 ==> Min(w, cw) <= AdaptWindow(w, cw, t, p)
  }

  /** The condition on the pace is exact: with any larger pace some sample makes the window fall
      below both the sample and its old value. */
  lemma PaceConditionExact(t: int, p: int)
    requires t > 0 && 0 <= p <= 400
    ensures NeverUndershoots(t, p) <==> Suits(t, p)
  {
    if Suits(t, p) {
      forall w: u16, cw: nat | w * (100 + p) / 100 < TWO16 ensures Min(w, cw) <= AdaptWindow(w, cw, t, p) {
        StepNotBelow(w, cw, t, p);
      }
    } else {
      Undershoot(t, p);
    }
  }

  lemma Undershoot(t: int, p: int)
    requires t > 0 && 0 <= p <= 400 && !Suits(t, p)
    ensures !NeverUndershoots(t, p)
  {
    // a window small enough to grow by (1 + pace) within 16 bits
    var w: u16 := 12000;
    var cw := if t < 70 then 120 * t else 8399;
    assert w * (400 - p) == 12000 * (400 - p) && w * (400 - p) / 400 == 30 * (400 - p);
    assert w * (100 + p) / 100 == 120 * (100 + p) < TWO16;
    assert t * w == 12000 * t;
    assert AdaptWindow(w, cw, t, p) == 30 * (400 - p) < cw;
  }

  // -------------------------------------------------- runs of the controller

  /** What can happen to the controller: actions on its queue, samples, and packets, which only
      move the byte counter and the last ACK. */
  datatype CtlEvent =
    | Solve(mark: int)
    | Clamp(window: u16)
    | Bursting(mode: int)
    | Adapting(mode: int)
    | Attaching(q: nat, args: SchedArgs)
    | Sample
    | Packets(rcvd: u64, lastAck: u32)

  function CtlNext(c: Ctl, e: CtlEvent): Ctl {
    match e
    case Solve(m) => DoSolution(c, m)
    case Clamp(r) => DoFreeze(c, r)
    case Bursting(mode) => DoBurst(c, mode)
    case Adapting(mode) => DoAdapt(c, mode)
    case Attaching(q, args) => DoAttach(c, q, args)
    case Sample => DoSample(c)
    case Packets(rcvd, ack) => c.(v := c.v.(rcvd := rcvd, lastAck := ack))
  }

  function CtlRun(c: Ctl, es: seq<CtlEvent>): Ctl {
    if es == [] then c else CtlNext(CtlRun(c, es[..|es| - 1]), es[|es| - 1])
  }

  /** The scaled samples an adaptive run sees. */
  function ScaledSamples(c: Ctl, es: seq<CtlEvent>): seq<nat> {
    if es == [] then [] else
    var n := |es| - 1;
    ScaledSamples(c, es[..n]) + if es[n].Sample? then [CtlRun(c, es[..n]).v.rcvd / 1024] else []
  }

  predicate SamplesOnly(es: seq<CtlEvent>) { forall e :: e in es ==> e.Sample? || e.Packets? }

  lemma AdaptSample(c: Ctl)
    requires c.v.adapt && !c.v.burst
    ensures var d := CtlNext(c, Sample);
            && d.v.adapt && !d.v.burst && d.tcp == c.tcp
            && d.v.rwnd == AdaptWindow(c.v.rwnd, c.v.rcvd / 1024, c.tcp.threshold, c.tcp.pace)
  {}

  lemma AdaptRunOne(w: u16, xs: seq<nat>, x: nat, t: int, p: int)
    ensures AdaptRun(w, xs + [x], t, p) == AdaptWindow(AdaptRun(w, xs, t, p), x, t, p)
  {}

  /** While the controller adapts, its window is the adaptive run over the samples it takes. */
  lemma {:induction false} AdaptingFollows(c: Ctl, es: seq<CtlEvent>)
    requires SamplesOnly(es) && c.v.adapt && !c.v.burst
    ensures var d := CtlRun(c, es);
            && d.v.adapt && !d.v.burst && d.tcp == c.tcp
            && d.v.rwnd == AdaptRun(c.v.rwnd, ScaledSamples(c, es), c.tcp.threshold, c.tcp.pace)
  {
    if es != [] {
      var n := |es| - 1;
      AdaptingFollows(c, es[..n]);
      var d, e, xs := CtlRun(c, es[..n]), es[n], ScaledSamples(c, es[..n]);
      assert e in es;
      if e.Sample? {
        AdaptSample(d);
        AdaptRunOne(c.v.rwnd, xs, d.v.rcvd / 1024, c.tcp.threshold, c.tcp.pace);
      } else {
        assert xs + [] == xs;
      }
    }
  }

  /** The bound, for the controller itself: as long as it adapts, whatever packets come. */
  lemma AdaptingBounded(c: Ctl, es: seq<CtlEvent>, lo: nat, hi: nat)
    requires SamplesOnly(es) && c.v.adapt && !c.v.burst
    requires var t, p := c.tcp.threshold, c.tcp.pace;
             t > 0 && 0 <= p <= 400 && Suits(t, p) && hi * (100 + p) / t < TWO16
    requires forall cw :: cw in ScaledSamples(c, es) ==> lo <= cw <= hi
    ensures Min(c.v.rwnd, lo) <= CtlRun(c, es).v.rwnd <= Max(c.v.rwnd, hi * (100 + c.tcp.pace) / c.tcp.threshold)
  {
    AdaptingFollows(c, es);
    AdaptBounded(c.v.rwnd, ScaledSamples(c, es), c.tcp.threshold, c.tcp.pace, lo, hi);
  }

  /** One adaptive sample of the controller, on the kilobytes received since the last. */
  lemma SampleAdapts(c: Ctl)
    requires c.v.adapt && !c.v.burst && 0 <= c.tcp.pace <= 400
    ensures var d, w, cw, t, p := CtlNext(c, Sample), c.v.rwnd, c.v.rcvd / 1024, c.tcp.threshold, c.tcp.pace;
            var w' := d.v.rwnd;
            && d.v.rcvd == 0 && d.tcp == c.tcp
            && if 100 * cw > t * w then w * (100 + p) < 100 * TWO16 ==> 100 * w' <= w * (100 + p) < 100 * (w' + 1)
               else if 10 * cw < 7 * w then 400 * w' <= w * (400 - p) < 400 * (w' + 1)
               else w' == w
  {
    AdaptSample(c);
    AdaptStepMeans(c.v.rwnd, c.v.rcvd / 1024, c.tcp.threshold, c.tcp.pace);
  }

  /** While the controller adapts, samples above the threshold share raise its window by at least one
      each, and samples below 70 percent lower it by at least one each. */
  lemma AdaptingMoves(c: Ctl, es: seq<CtlEvent>)
    requires SamplesOnly(es) && c.v.adapt && !c.v.burst && 0 < c.tcp.pace <= 400
    ensures var w, xs, t, p := c.v.rwnd, ScaledSamples(c, es), c.tcp.threshold, c.tcp.pace;
            && (w * p >= 100 && AllAbove(w, xs, t, p) ==> CtlRun(c, es).v.rwnd >= w + |xs|)
            && (AllBelow(w, xs, t, p) ==> CtlRun(c, es).v.rwnd <= w - |xs|)
  {
    var w, xs, t, p := c.v.rwnd, ScaledSamples(c, es), c.tcp.threshold, c.tcp.pace;
    AdaptingFollows(c, es);
    if w * p >= 100 && AllAbove(w, xs, t, p) { AdaptGrows(w, xs, t, p); }
    if AllBelow(w, xs, t, p) { AdaptShrinks(w, xs, t, p); }
  }

  // ---------------------------------------------------- burst to adaptation

  /** At the rate of `c` bytes per interval, one round trip carries `x` kilobytes. */
  predicate Carries(c: nat, rtt: int, interval: int, x: int) { 1024 * x * interval <= c * rtt }

  lemma ScaleBelow(e: nat, k: nat, m: nat, x: nat)
    requires 1024 * e <= k && k * m <= x
    ensures 1024 * e * m <= x
  {
    MulLe(1024 * e, k, m);
  }

  lemma ScaleAbove(e: nat, k: nat, m: nat, x: nat)
    requires k < 1024 * (e + 1) && x < (k + 1) * m
    ensures x < 1024 * (e + 1) * m
  {
    MulLe(k + 1, 1024 * (e + 1), m);
  }

  lemma FloorTimes(x: nat, m: nat)
    requires m > 0
    ensures (x / m) * m <= x < (x / m + 1) * m
  {
    FloorMeans(x, m);
  }

  lemma KilobytesOf(x: nat, m: nat)
    requires m > 0
    ensures var e := x / m / 1024; 1024 * e * m <= x < 1024 * (e + 1) * m
  {
    var k := x / m;
    FloorTimes(x, m);
    ScaleBelow(k / 1024, k, m, x);
    ScaleAbove(k / 1024, k, m, x);
  }

  lemma EstimateIs(c: u64, rtt: nat, interval: nat)
    requires interval > 0 && c * rtt / interval < TWO64
    ensures BurstEstimate(c, rtt, interval) == c * rtt / interval / 1024
  {
    var x := c * rtt;
    assert x >= 0 by { MulLe(0, c, rtt); }
    FitsTwo64(x / interval);
  }

  lemma FitsTwo64(k: nat)
    requires k < TWO64
    ensures ToU64(k) == k
  {}

  /** What a burst sample estimates: the window one round trip carries at the rate observed, rounded
      down. */
  lemma EstimateMeans(c: u64, rtt: nat, interval: nat)
    requires interval > 0 && c * rtt / interval < TWO64
    ensures var e := BurstEstimate(c, rtt, interval);
            1024 * e * interval <= c * rtt < 1024 * (e + 1) * interval
  {
    EstimateIs(c, rtt, interval);
    KilobytesOf(c * rtt, interval);
  }

  lemma EstimateLargest(c: u64, rtt: nat, interval: nat, x: int)
    requires interval > 0 && c * rtt / interval < TWO64
    ensures Carries(c, rtt, interval, x) <==> x <= BurstEstimate(c, rtt, interval)
  {
    var e := BurstEstimate(c, rtt, interval);
    EstimateMeans(c, rtt, interval);
    if x <= e {
      MulLe(1024 * x, 1024 * e, interval);
    } else {
      MulLe(1024 * (e + 1), 1024 * x, interval);
    }
  }

  function EstimateOf(c: Ctl): int {
    BurstEstimate(c.v.rcvd, c.tcp.links.Get(c.tcp.mark).rtt, c.tcp.interval)
  }

  /** The estimates of the samples taken during a burst. */
  function Estimates(c: Ctl, es: seq<CtlEvent>): seq<int> {
    if es == [] then [] else
    var n := |es| - 1;
    Estimates(c, es[..n]) + if es[n].Sample? then [EstimateOf(CtlRun(c, es[..n]))] else []
  }

  function Largest(first: int, xs: seq<int>): int {
    if xs == [] then first else Max(Largest(first, xs[..|xs| - 1]), xs[|xs| - 1])
  }

  lemma {:induction false} LargestIs(first: int, xs: seq<int>)
    ensures first <= Largest(first, xs) && forall x :: x in xs ==> x <= Largest(first, xs)
    ensures Largest(first, xs) == first || Largest(first, xs) in xs
  {
    if xs != [] {
      LargestIs(first, xs[..|xs| - 1]);
      assert forall x :: x in xs ==> x in xs[..|xs| - 1] || x == xs[|xs| - 1];
    }
  }

  lemma LargestOne(first: int, xs: seq<int>, x: int)
    ensures Largest(first, xs + [x]) == Max(Largest(first, xs), x)
  {}

  lemma BurstSample(c: Ctl)
    requires c.v.burst && EstimateOf(c) < TWO16
    ensures var d := CtlNext(c, Sample);
            d.v.burst && d.tcp == c.tcp && d.v.rwnd == Max(c.v.rwnd, EstimateOf(c))
  {}

  lemma {:induction false} BurstSamples(c: Ctl, es: seq<CtlEvent>)
    requires SamplesOnly(es) && c.v.burst
    requires forall x :: x in Estimates(c, es) ==> x < TWO16
    ensures var d := CtlRun(c, es);
            d.v.burst && d.tcp == c.tcp && d.v.rwnd == Largest(c.v.rwnd, Estimates(c, es))
  {
    if es != [] {
      var n := |es| - 1;
      var d, e, xs := CtlRun(c, es[..n]), es[n], Estimates(c, es[..n]);
      assert forall x :: x in xs ==> x in Estimates(c, es);
      BurstSamples(c, es[..n]);
      assert e in es;
      if e.Sample? {
        assert EstimateOf(d) in Estimates(c, es);
        BurstSample(d);
        LargestOne(c.v.rwnd, xs, EstimateOf(d));
      } else {
        assert xs + [] == xs;
      }
    }
  }

  /** Burst on, any samples, burst off, adapt on: the window is then the largest of the remembered
      window and the burst estimates, and that is what is remembered of the link from then on. */
  lemma BurstHandover(c: Ctl, es: seq<CtlEvent>)
    requires SamplesOnly(es) && 0 <= Remembered(c.tcp) < TWO16
    requires forall x :: x in Estimates(CtlNext(c, Bursting(1)), es) ==> x < TWO16
    ensures var b := CtlNext(c, Bursting(1));
            var d := CtlNext(CtlNext(CtlRun(b, es), Bursting(0)), Adapting(1));
            && d.v.rwnd == Remembered(d.tcp) == Largest(Remembered(c.tcp), Estimates(b, es))
            && d.v.adapt && !d.v.burst && d.tcp.mark == c.tcp.mark
            && d.tcp.interval == d.tcp.links.Get(d.tcp.mark).rtt
  {
    var b := CtlNext(c, Bursting(1));
    assert b.v.rwnd == Remembered(c.tcp);
    BurstSamples(b, es);
    LargestIs(Remembered(c.tcp), Estimates(b, es));
  }

  // ----------------------------------------------------------- link memory

  /** Anything but a new SOL_INIT_SCHED, with every handover going to link `b`. */
  predicate StaysOn(b: int, es: seq<CtlEvent>) {
    forall e :: e in es ==> !e.Attaching? && (e.Solve? ==> e.mark == b)
  }

  lemma {:induction false} OtherLinkUntouched(c: Ctl, a: int, b: int, es: seq<CtlEvent>)
    requires InRange(a) && InRange(b) && a != b && c.tcp.mark == b && StaysOn(b, es)
    ensures var d := CtlRun(c, es); d.tcp.mark == b && d.tcp.links.Get(a) == c.tcp.links.Get(a)
  {
    if es != [] {
      OtherLinkUntouched(c, a, b, es[..|es| - 1]);
      assert es[|es| - 1] in es;
    }
  }

  /** Leave link `a` with a window above 0, do anything on link `b`, come back: the window is
      exactly what it was. */
  lemma LinkRoundTrip(c: Ctl, a: int, b: int, es: seq<CtlEvent>)
    requires InRange(a) && InRange(b) && a != b && c.tcp.mark == a && c.v.rwnd > 0 && StaysOn(b, es)
    ensures CtlNext(CtlRun(CtlNext(c, Solve(b)), es), Solve(a)).v.rwnd == c.v.rwnd
  {
    var d := CtlNext(c, Solve(b));
    assert d.tcp.links.Get(a).rw == c.v.rwnd;
    OtherLinkUntouched(d, a, b, es);
  }

  /** The condition is exact: from a window of 0 the link is not left at all, and one freeze and
      one more handover overwrite what was remembered of it. */
  lemma ZeroWindowForgotten(c: Ctl, a: int, b: int)
    requires InRange(a) && InRange(b) && a != b && c.tcp.mark == a
    ensures (forall es :: StaysOn(b, es) ==>
               CtlNext(CtlRun(CtlNext(c, Solve(b)), es), Solve(a)).v.rwnd == c.v.rwnd)
            <==> c.v.rwnd > 0
  {
    if c.v.rwnd > 0 {
      forall es | StaysOn(b, es)
        ensures CtlNext(CtlRun(CtlNext(c, Solve(b)), es), Solve(a)).v.rwnd == c.v.rwnd
      {
        LinkRoundTrip(c, a, b, es);
      }
    } else {
      var es := [Clamp(0), Solve(b)];
      var d := CtlNext(c, Solve(b));
      var f := CtlNext(d, Clamp(0));
      assert es[..1][..0] == [] && es[..1] == [Clamp(0)];
      assert CtlRun(d, es[..1]) == f;
      assert CtlRun(d, es) == CtlNext(f, Solve(b));
      assert CtlNext(CtlRun(d, es), Solve(a)).v.rwnd == 10;
      assert StaysOn(b, es);
    }
  }

  // --------------------------------------------------------- mode and freeze

  predicate Exclusive(c: Ctl) { !(c.v.burst && c.v.adapt) }

  /** The only ways to have both modes on: attach the controller during a burst, or switch a mode
      on with a negative argument, which no trace does. */
  predicate Clashes(c: Ctl, e: CtlEvent) {
    || (e.Attaching? && c.v.burst)
    || (e.Bursting? && e.mode < 0 && c.v.adapt)
    || (e.Adapting? && e.mode < 0 && c.v.burst)
  }

  lemma ExclusiveStep(c: Ctl, e: CtlEvent)
    requires Exclusive(c)
    ensures Exclusive(CtlNext(c, e)) <==> !Clashes(c, e)
  {}

  /** Burst and adaptation are never both on, over any run in which none of those happens. */
  lemma {:induction false} NeverBoth(c: Ctl, es: seq<CtlEvent>)
    requires Exclusive(c)
    requires forall i :: 0 <= i < |es| ==> !Clashes(CtlRun(c, es[..i]), es[i])
    ensures Exclusive(CtlRun(c, es))
  {
    if es != [] {
      var n := |es| - 1;
      forall i | 0 <= i < n ensures !Clashes(CtlRun(c, es[..n][..i]), es[..n][i]) {
        assert es[..n][..i] == es[..i];
      }
      NeverBoth(c, es[..n]);
      ExclusiveStep(CtlRun(c, es[..n]), es[n]);
    }
  }

  predicate Quiet(e: CtlEvent) { e.Sample? || e.Packets? || (e.Bursting? && e.mode == 0) }

  predicate Frozen(v: WindowState) { v.rwnd == 10 && !v.burst && !v.adapt }

  predicate HeldAt(v: WindowState, w: int) { v.rwnd == w && !v.burst && !v.adapt }

  lemma QuietKeepsHeld(c: Ctl, e: CtlEvent, w: int)
    requires HeldAt(c.v, w) && Quiet(e)
    ensures HeldAt(CtlNext(c, e).v, w)
  {}

  /** From a handover with freeze until the next phase, whatever samples and packets come, the window
      is exactly what the freeze asked for, but at least 10, and both modes are off. */
  lemma {:induction false} FreezeHolds(c: Ctl, mark: int, window: u16, es: seq<CtlEvent>)
    requires forall e :: e in es ==> Quiet(e)
    ensures var v := CtlRun(CtlNext(CtlNext(c, Solve(mark)), Clamp(window)), es).v;
            HeldAt(v, Max(window, 10)) && (window <= 10 ==> Frozen(v))
  {
    if es != [] {
      FreezeHolds(c, mark, window, es[..|es| - 1]);
      assert es[|es| - 1] in es;
      QuietKeepsHeld(CtlRun(CtlNext(CtlNext(c, Solve(mark)), Clamp(window)), es[..|es| - 1]), es[|es| - 1], Max(window, 10));
    }
  }

  /** The window with which a packet leaves the window stage. */
  function LeavingWindow(v: WindowState, p: Packet, mark: u32): u16 {
    var o := HandleRwnd(v, p, mark);
    if o.handled && |o.verdicts| == 1 && o.verdicts[0].Accept? && o.verdicts[0].window.Some?
    then o.verdicts[0].window.value else p.window
  }

  /** While rewriting is on, a well-formed packet leaves with the smaller of its own window and the
      controller's; during a freeze that is at most 10. */
  lemma RewrittenWindow(v: WindowState, p: Packet, mark: u32)
    requires v.on && p.RwndReadable()
    ensures LeavingWindow(v, p, mark) == Min(p.window, v.rwnd)
    ensures Frozen(v) ==> LeavingWindow(v, p, mark) == Min(p.window, 10)
  {}

  // ----------------------------------------- the controller inside the system

  /** The controller event an action on queue `q` amounts to. */
  function EventOf(a: Action, q: nat): Option<CtlEvent> {
    match a
    case Solution(r, m) => if r == q then Some(Solve(m)) else None
    case Freeze(r, w) => if r == q then Some(Clamp(w)) else None
    case Burst(r, mode) => if r == q then Some(Bursting(mode)) else None
    case Adapt(r, mode) => if r == q then Some(Adapting(mode)) else None
    case Attach(r, args) => if r == q then Some(Attaching(q, args)) else None
    case _ => None
  }

  predicate SteersOther(a: Action, q: nat) {
    (a.Solution? || a.Freeze? || a.Burst? || a.Adapt? || a.Attach?) && a.q != q
  }

  /** Seen from queue `q`, the system's actions, samples and packets are controller events. */
  lemma PerformIsControl(s: Sys, a: Action, q: nat)
    requires Live(s, q) && !Perform(s, a).crashed && !SteersOther(a, q)
    requires !(a.InitNfqueue? && a.q == q) && !(a.TeardownNfqueue? && a.q == q)
    ensures Live(Perform(s, a), q)
    ensures CtlOf(Perform(s, a), q) ==
            match EventOf(a, q) case Some(e) => CtlNext(CtlOf(s, q), e) case None => CtlOf(s, q)
  {}

  lemma TickIsSample(s: Sys, q: nat)
    requires Live(s, q) && !Tick(s).crashed && s.tcp.worker == Some(q)
    ensures Live(Tick(s), q) && CtlOf(Tick(s), q) == CtlNext(CtlOf(s, q), Sample)
  {}

  lemma InterfereIsPackets(s: Sys, env: Env, q: nat)
    requires Live(s, q)
    ensures Live(Interfere(s, env), q)
    ensures var v := s.slots[q].w.win;
            var e := if q in env then Packets(env[q].rcvd, env[q].lastAck) else Packets(v.rcvd, v.lastAck);
            CtlOf(Interfere(s, env), q) == CtlNext(CtlOf(s, q), e)
  {}
}
