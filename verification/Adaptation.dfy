/** When the controller adapts, read off the trace: from the end of a SOL_HO with adaptation, and from a
    SOL_INIT_SCHED, until the next SOL_HO or burst. */
module Adaptation {
  import opened Machine
  import opened Action
  import opened Scheduler
  import opened Dispatch
  import opened Lifecycle
  import opened Layout
  import opened Registers
  import opened Trace
  import opened Intervals
  import opened Phases
  import opened Setup

  // ------------------------------------------------------ the specification

  ghost predicate LatestSol(ls: seq<Line>, i: int, q: nat, t: int) {
    && SolOn(ls, i, q) && ls[i].time <= t
    && forall j :: SolOn(ls, j, q) && ls[j].time <= t ==> j == i || LexBefore(ls[j].time, j, ls[i].time, i)
  }

  /** The latest SOL_HO has settled, with adaptation. */
  ghost predicate OnBySolution(ls: seq<Line>, q: nat, t: int) {
    exists i :: LatestSol(ls, i, q, t) && ls[i].adapt > 0 && SettleTime(ls[i]) <= t
  }

  /** When a SOL_HO that has begun last stops the adaptation: at its start, or at the start of its burst. */
  function OffTime(l: Line, t: int): nat
    requires l.SolHo?
  {
    if l.burstMs > 0 && ThawTime(l) <= t then ThawTime(l) else l.time
  }

  /** No SOL_HO has stopped it since line `a`. */
  ghost predicate NotStoppedSince(ls: seq<Line>, a: int, q: nat, t: int)
    requires SetUpOn(ls, a, q)
  {
    forall i :: SolOn(ls, i, q) && ls[i].time <= t ==> LexBefore(OffTime(ls[i], t), i, ls[a].time, a)
  }

  ghost predicate OnBySetUp(ls: seq<Line>, q: nat, t: int) {
    exists a :: SetUpOn(ls, a, q) && ls[a].time <= t && NotStoppedSince(ls, a, q, t)
  }

  ghost predicate AdaptsAt(ls: seq<Line>, q: nat, t: int) { OnBySolution(ls, q, t) || OnBySetUp(ls, q, t) }

  // -------------------------------------------------------- the latest write

  ghost predicate LastAdapt(ls: seq<Line>, cs: Chunks, evs: seq<Ev>, n: nat, q: nat, t: int, k: int, w: int, h: int) {
    && OneInit(ls) && Phased(ls, cs) && WithinLife(ls, cs) && SortedTrace(cs, evs) && DueBy(evs, n, t)
    && LastWrite(evs, n, AdaptOf(q), k) && Has(cs, w, h) && evs[k] == EvAt(cs, w, h)
  }

  lemma SetUpDue(ls: seq<Line>, cs: Chunks, evs: seq<Ev>, n: nat, q: nat, t: int, k: int, w: int, h: int, a: int)
    requires LastAdapt(ls, cs, evs, n, q, t, k, w, h) && SetUpOn(ls, a, q) && ls[a].time <= t
    ensures Has(cs, a, 0) && cs[a][0].time == ls[a].time && ((a == w && h == 0) || ComesBefore(cs, a, 0, w, h))
  {
    assert Starts(ls[a], cs[a]);
    NoneLater(cs, evs, n, AdaptOf(q), t, k, w, h, a, 0);
  }

  lemma SolStarted(ls: seq<Line>, cs: Chunks, evs: seq<Ev>, n: nat, q: nat, t: int, k: int, w: int, h: int, i: int)
    requires LastAdapt(ls, cs, evs, n, q, t, k, w, h) && SolOn(ls, i, q) && ls[i].time <= t
    ensures Has(cs, i, 0) && cs[i][0].time == ls[i].time && ((i == w && h == 0) || ComesBefore(cs, i, 0, w, h))
  {
    assert SolEvents(ls[i], cs[i]);
    NoneLater(cs, evs, n, AdaptOf(q), t, k, w, h, i, 0);
  }

  lemma BurstStarted(ls: seq<Line>, cs: Chunks, evs: seq<Ev>, n: nat, q: nat, t: int, k: int, w: int, h: int, i: int)
    requires LastAdapt(ls, cs, evs, n, q, t, k, w, h) && SolOn(ls, i, q) && ls[i].burstMs > 0 && ThawTime(ls[i]) <= t
    ensures Has(cs, i, OnPos(ls[i])) && cs[i][OnPos(ls[i])].time == ThawTime(ls[i])
    ensures (i == w && h == OnPos(ls[i])) || ComesBefore(cs, i, OnPos(ls[i]), w, h)
  {
    assert SolEvents(ls[i], cs[i]);
    NoneLater(cs, evs, n, AdaptOf(q), t, k, w, h, i, OnPos(ls[i]));
  }

  lemma SolSettled(ls: seq<Line>, cs: Chunks, evs: seq<Ev>, n: nat, q: nat, t: int, k: int, w: int, h: int, i: int)
    requires LastAdapt(ls, cs, evs, n, q, t, k, w, h) && SolOn(ls, i, q) && ls[i].adapt > 0 && SettleTime(ls[i]) <= t
    ensures Has(cs, i, |cs[i]| - 1) && cs[i][|cs[i]| - 1].time == SettleTime(ls[i]) && cs[i][|cs[i]| - 1].action.Adapt?
    ensures (i == w && h == |cs[i]| - 1) || ComesBefore(cs, i, |cs[i]| - 1, w, h)
  {
    assert SolEvents(ls[i], cs[i]);
    NoneLater(cs, evs, n, AdaptOf(q), t, k, w, h, i, |cs[i]| - 1);
  }

  /** The latest write is a SOL_INIT_SCHED. */
  lemma AfterSetUp(ls: seq<Line>, cs: Chunks, evs: seq<Ev>, n: nat, q: nat, t: int, k: int, w: int, h: int)
    requires LastAdapt(ls, cs, evs, n, q, t, k, w, h) && SetUpOn(ls, w, q)
    ensures AdaptsAt(ls, q, t)
  {
    assert SteerFact(ls[w], h, cs[w][h]) && Starts(ls[w], cs[w]);
    forall i | SolOn(ls, i, q) && ls[i].time <= t ensures LexBefore(OffTime(ls[i], t), i, ls[w].time, w) {
      SolStarted(ls, cs, evs, n, q, t, k, w, h, i);
      if ls[i].burstMs > 0 && ThawTime(ls[i]) <= t { BurstStarted(ls, cs, evs, n, q, t, k, w, h, i); }
    }
    assert NotStoppedSince(ls, w, q, t);
  }

  /** The latest write is the end of a SOL_HO with adaptation. */
  lemma AfterSettling(ls: seq<Line>, cs: Chunks, evs: seq<Ev>, n: nat, q: nat, t: int, k: int, w: int, h: int)
    requires LastAdapt(ls, cs, evs, n, q, t, k, w, h) && PhasesApart(ls, q) && SolOn(ls, w, q) && cs[w][h].action.Adapt?
    ensures AdaptsAt(ls, q, t)
  {
    assert SolFact(ls[w], h, cs[w][h]);
    forall i | SolOn(ls, i, q) && ls[i].time <= t ensures i == w || LexBefore(ls[i].time, i, ls[w].time, w) {
      SolStarted(ls, cs, evs, n, q, t, k, w, h, i);
    }
    assert LatestSol(ls, w, q, t);
  }

  /** The latest write is the start of a SOL_HO or of its burst. */
  lemma AfterStopping(ls: seq<Line>, cs: Chunks, evs: seq<Ev>, n: nat, q: nat, t: int, k: int, w: int, h: int)
    requires LastAdapt(ls, cs, evs, n, q, t, k, w, h) && PhasesApart(ls, q) && SolOn(ls, w, q)
    requires cs[w][h].action.Solution? || (cs[w][h].action.Burst? && cs[w][h].action.mode == 1)
    ensures !AdaptsAt(ls, q, t)
  {
    assert SolFact(ls[w], h, cs[w][h]) && SolEvents(ls[w], cs[w]);
    assert cs[w][h].time == OffTime(ls[w], t) by {
      if ls[w].burstMs > 0 && ThawTime(ls[w]) <= t { BurstStarted(ls, cs, evs, n, q, t, k, w, h, w); }
    }
    forall i | LatestSol(ls, i, q, t) && ls[i].adapt > 0 && SettleTime(ls[i]) <= t ensures false {
      SettledEarlier(ls, cs, evs, n, q, t, k, w, h, i);
    }
    forall a | SetUpOn(ls, a, q) && ls[a].time <= t ensures !NotStoppedSince(ls, a, q, t) {
      SetUpDue(ls, cs, evs, n, q, t, k, w, h, a);
    }
  }

  /** Once a SOL_HO has settled, what stops the adaptation is not its own, and then it is not the latest. */
  lemma SettledEarlier(ls: seq<Line>, cs: Chunks, evs: seq<Ev>, n: nat, q: nat, t: int, k: int, w: int, h: int, i: int)
    requires LastAdapt(ls, cs, evs, n, q, t, k, w, h) && PhasesApart(ls, q) && SolOn(ls, w, q)
    requires cs[w][h].action.Solution? || (cs[w][h].action.Burst? && cs[w][h].action.mode == 1)
    requires SolOn(ls, i, q) && ls[i].time <= t && ls[i].adapt > 0 && SettleTime(ls[i]) <= t
    ensures !LatestSol(ls, i, q, t)
  {
    assert SolFact(ls[w], h, cs[w][h]) && SolEvents(ls[w], cs[w]);
    SolStarted(ls, cs, evs, n, q, t, k, w, h, i);
    SolSettled(ls, cs, evs, n, q, t, k, w, h, i);
  }

  /** The latest write opened the queue. */
  lemma AfterOpening(ls: seq<Line>, cs: Chunks, evs: seq<Ev>, n: nat, q: nat, t: int, k: int, w: int, h: int)
    requires LastAdapt(ls, cs, evs, n, q, t, k, w, h) && evs[k].action.InitNfqueue?
    ensures !AdaptsAt(ls, q, t)
  {
    assert QueueFact(ls[w], h, cs[w][h]);
    forall i | LatestSol(ls, i, q, t) ensures false {
      SolStarted(ls, cs, evs, n, q, t, k, w, h, i);
      OpenedBefore(ls, cs, i, w);
    }
    forall a | SetUpOn(ls, a, q) && ls[a].time <= t ensures false {
      SetUpDue(ls, cs, evs, n, q, t, k, w, h, a);
      OpenedBefore(ls, cs, a, w);
    }
  }

  lemma SolutionWritten(ls: seq<Line>, cs: Chunks, evs: seq<Ev>, n: nat, q: nat, t: int, k: int, w: int, h: int)
    requires LastAdapt(ls, cs, evs, n, q, t, k, w, h) && PhasesApart(ls, q) && !evs[k].action.InitNfqueue? && !evs[k].action.Attach?
    ensures Writes(AdaptOf(q), evs[k].action) == Some(Flag(AdaptsAt(ls, q, t)))
  {
    assert QueueFact(ls[w], h, cs[w][h]) && SolFact(ls[w], h, cs[w][h]);
    if evs[k].action.Adapt? {
      AfterSettling(ls, cs, evs, n, q, t, k, w, h);
    } else {
      AfterStopping(ls, cs, evs, n, q, t, k, w, h);
    }
  }

  lemma AdaptWritten(ls: seq<Line>, cs: Chunks, evs: seq<Ev>, n: nat, q: nat, t: int, k: int)
    requires OneInit(ls) && Phased(ls, cs) && WithinLife(ls, cs) && PhasesApart(ls, q)
    requires SortedTrace(cs, evs) && DueBy(evs, n, t) && LastWrite(evs, n, AdaptOf(q), k)
    ensures Writes(AdaptOf(q), evs[k].action) == Some(Flag(AdaptsAt(ls, q, t)))
  {
    var w, h := Origin(cs, evs, k);
    if evs[k].action.InitNfqueue? {
      AfterOpening(ls, cs, evs, n, q, t, k, w, h);
    } else if evs[k].action.Attach? {
      assert QueueFact(ls[w], h, cs[w][h]) && SteerFact(ls[w], h, cs[w][h]);
      AfterSetUp(ls, cs, evs, n, q, t, k, w, h);
    } else {
      SolutionWritten(ls, cs, evs, n, q, t, k, w, h);
    }
  }

  /** For every trace whose SOL_HOs do not overlap, once all events due by `t` have been dispatched, the
      controller adapts on a live queue exactly when its latest SOL_HO has settled with adaptation, or a
      SOL_INIT_SCHED has come since the latest start of a SOL_HO or of its burst. */
  lemma AdaptSemantics(ls: seq<Line>, evs: seq<Ev>, s: Sys, envs: seq<Env>, q: nat, t: int, j: int)
    requires TraceOk(ls) && PhasesApart(ls, q) && SortedTrace(Compile(ls), evs) && Fresh(s) && AliveAt(ls, j, q, t)
    requires DueBy(evs, |LoopRun(Begin(s, evs), envs).done|, t)
    ensures var m := LoopRun(Begin(s, evs), envs); Live(m.sys, q) && m.sys.slots[q].w.win.adapt == AdaptsAt(ls, q, t)
  {
    var m := LoopRun(Begin(s, evs), envs);
    var k := TraceLast(ls, evs, s, envs, AdaptOf(q), t, j);
    CompileIsPhased(ls);
    AdaptWritten(ls, Compile(ls), evs, |m.done|, q, t, k);
  }
}
