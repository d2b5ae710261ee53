/** When a queue drops duplicate ACKs, read off the trace: during the smoothing phase of a SOL_HO, and as
    the latest SOL_HANDLEDUP says. */
module Duplicates {
  import opened Machine
  import opened Worker
  import opened Action
  import opened Scheduler
  import opened Dispatch
  import opened Lifecycle
  import opened Layout
  import opened Registers
  import opened Trace
  import opened Intervals

  // ------------------------------------------------------ the specification

  /** Line `i` is a SOL_HO of the queue with a smoothing phase. */
  predicate SmoothOn(ls: seq<Line>, i: int, q: nat) { 0 <= i < |ls| && ls[i].SolHo? && ls[i].q == q && ls[i].dedup }

  function SmoothEnd(l: Line): nat
    requires l.SolHo?
  {
    ThawTime(l) + l.smoothMs
  }

  predicate SmoothsAt(ls: seq<Line>, i: int, q: nat, t: int) {
    SmoothOn(ls, i, q) && ThawTime(ls[i]) <= t < SmoothEnd(ls[i])
  }

  /** The smoothing phases of a queue do not overlap, and on a tie the file has the ending one first. */
  ghost predicate SmoothsApart(ls: seq<Line>, q: nat) {
    forall i, j :: SmoothOn(ls, i, q) && SmoothOn(ls, j, q) && i != j ==>
      LexBefore(SmoothEnd(ls[i]), i, ThawTime(ls[j]), j) || LexBefore(SmoothEnd(ls[j]), j, ThawTime(ls[i]), i)
  }

  predicate DupOn(ls: seq<Line>, j: int, q: nat) { 0 <= j < |ls| && ls[j].HandleDup? && ls[j].q == q }

  ghost predicate LatestDup(ls: seq<Line>, j: int, q: nat, t: int) {
    && DupOn(ls, j, q) && ls[j].time <= t
    && forall h :: DupOn(ls, h, q) && ls[h].time <= t ==> h == j || LexBefore(ls[h].time, h, ls[j].time, j)
  }

  /** A smoothing phase covers `t`, and no SOL_HANDLEDUP since its start has switched dedup off. */
  ghost predicate OnBySmoothing(ls: seq<Line>, q: nat, t: int) {
    exists i :: SmoothsAt(ls, i, q, t) && NotSwitchedOff(ls, i, q, t)
  }

  ghost predicate NotSwitchedOff(ls: seq<Line>, i: int, q: nat, t: int)
    requires SmoothOn(ls, i, q)
  {
    forall j :: LatestDup(ls, j, q, t) && LexBefore(ThawTime(ls[i]), i, ls[j].time, j) ==> ls[j].enable
  }

  /** The latest SOL_HANDLEDUP switched it on, and no smoothing phase has ended since. */
  ghost predicate OnByLine(ls: seq<Line>, q: nat, t: int) {
    exists j :: LatestDup(ls, j, q, t) && ls[j].enable && NoneEndedSince(ls, j, q, t)
  }

  ghost predicate NoneEndedSince(ls: seq<Line>, j: int, q: nat, t: int)
    requires DupOn(ls, j, q)
  {
    forall i :: SmoothOn(ls, i, q) && SmoothEnd(ls[i]) <= t ==> LexBefore(SmoothEnd(ls[i]), i, ls[j].time, j)
  }

  ghost predicate DedupsAt(ls: seq<Line>, q: nat, t: int) { OnBySmoothing(ls, q, t) || OnByLine(ls, q, t) }

  // ------------------------------------------------------------- the events

  /** The place of the smoothing events among the events of the line. */
  function SmoothPos(l: Line): nat
    requires l.SolHo?
  {
    1 + if l.freeze then 1 else 0
  }

  predicate IsDedup(a: Action) { a.Set? && a.setter.SetDedup? }

  predicate DedupFact(l: Line, k: int, e: Timed) {
    IsDedup(e.action) ==>
      || (l.HandleDup? && k == 0 && e.time == l.time && e.action.setter.enable == l.enable)
      || (l.SolHo? && l.dedup && k == SmoothPos(l) && e.time == ThawTime(l) && e.action.setter.enable)
      || (l.SolHo? && l.dedup && k == SmoothPos(l) + 1 && e.time == SmoothEnd(l) && !e.action.setter.enable)
  }

  ghost predicate DedupEvents(l: Line, c: seq<Timed>) {
    && (l.HandleDup? ==> |c| == 1 && c[0] == Timed(l.time, Set(l.q, SetDedup(l.enable))))
    && (l.SolHo? && l.dedup ==>
          && |c| >= SmoothPos(l) + 2 && c[SmoothPos(l)] == Timed(ThawTime(l), Set(l.q, SetDedup(true)))
          && c[SmoothPos(l) + 1] == Timed(SmoothEnd(l), Set(l.q, SetDedup(false))))
  }

  ghost predicate Smoothed(ls: seq<Line>, cs: Chunks) {
    && Compiled(ls, cs)
    && (forall i, k :: Has(cs, i, k) ==> DedupFact(ls[i], k, cs[i][k]))
    && (forall i :: 0 <= i < |cs| ==> DedupEvents(ls[i], cs[i]))
  }

  lemma SolHoDedup(l: Line, k: int)
    requires l.SolHo? && 0 <= k < |CompileSolHo(l)|
    ensures DedupFact(l, k, CompileSolHo(l)[k]) && DedupEvents(l, CompileSolHo(l))
  {}

  lemma HoDedup(l: Line, k: int)
    requires l.Ho? && 0 <= k < |CompileHo(l)|
    ensures !IsDedup(CompileHo(l)[k].action)
  {}

  lemma DedupFacts(l: Line, k: int)
    requires 0 <= k < |CompileLine(l)|
    ensures DedupFact(l, k, CompileLine(l)[k])
  {
    if l.SolHo? { SolHoDedup(l, k); } else if l.Ho? { HoDedup(l, k); }
  }

  lemma CompileIsSmoothed(ls: seq<Line>)
    ensures Smoothed(ls, Compile(ls))
  {
    var cs := Compile(ls);
    CompileIsCompiled(ls);
    forall i, k | Has(cs, i, k) ensures DedupFact(ls[i], k, cs[i][k]) { DedupFacts(ls[i], k); }
    forall i | 0 <= i < |cs| ensures DedupEvents(ls[i], cs[i]) {
      if ls[i].SolHo? { SolHoDedup(ls[i], 0); }
    }
  }

  // -------------------------------------------------------- the latest write

  /** The setting of the proofs below: event `k`, the `h`-th of line `w`, is the latest write due by `t`. */
  ghost predicate LastDedup(ls: seq<Line>, cs: Chunks, evs: seq<Ev>, n: nat, q: nat, t: int, k: int, w: int, h: int) {
    && OneInit(ls) && Smoothed(ls, cs) && WithinLife(ls, cs) && SortedTrace(cs, evs) && DueBy(evs, n, t)
    && LastWrite(evs, n, DedupOf(q), k) && Has(cs, w, h) && evs[k] == EvAt(cs, w, h)
  }

  /** A smoothing phase due at all has switched dedup on before, or with, the latest write. */
  lemma SmoothStarted(ls: seq<Line>, cs: Chunks, evs: seq<Ev>, n: nat, q: nat, t: int, k: int, w: int, h: int, i: int)
    requires LastDedup(ls, cs, evs, n, q, t, k, w, h) && SmoothOn(ls, i, q) && ThawTime(ls[i]) <= t
    ensures Has(cs, i, SmoothPos(ls[i])) && cs[i][SmoothPos(ls[i])].time == ThawTime(ls[i])
    ensures (i == w && h == SmoothPos(ls[i])) || ComesBefore(cs, i, SmoothPos(ls[i]), w, h)
  {
    assert DedupEvents(ls[i], cs[i]);
    NoneLater(cs, evs, n, DedupOf(q), t, k, w, h, i, SmoothPos(ls[i]));
  }

  lemma SmoothEnded(ls: seq<Line>, cs: Chunks, evs: seq<Ev>, n: nat, q: nat, t: int, k: int, w: int, h: int, i: int)
    requires LastDedup(ls, cs, evs, n, q, t, k, w, h) && SmoothOn(ls, i, q) && SmoothEnd(ls[i]) <= t
    ensures Has(cs, i, SmoothPos(ls[i]) + 1) && cs[i][SmoothPos(ls[i]) + 1].time == SmoothEnd(ls[i])
    ensures (i == w && h == SmoothPos(ls[i]) + 1) || ComesBefore(cs, i, SmoothPos(ls[i]) + 1, w, h)
  {
    assert DedupEvents(ls[i], cs[i]);
    NoneLater(cs, evs, n, DedupOf(q), t, k, w, h, i, SmoothPos(ls[i]) + 1);
  }

  lemma DupDue(ls: seq<Line>, cs: Chunks, evs: seq<Ev>, n: nat, q: nat, t: int, k: int, w: int, h: int, j: int)
    requires LastDedup(ls, cs, evs, n, q, t, k, w, h) && DupOn(ls, j, q) && ls[j].time <= t
    ensures Has(cs, j, 0) && cs[j][0].time == ls[j].time
    ensures (j == w && h == 0) || ComesBefore(cs, j, 0, w, h)
  {
    assert DedupEvents(ls[j], cs[j]);
    NoneLater(cs, evs, n, DedupOf(q), t, k, w, h, j, 0);
  }

  /** The latest write opened the queue: nothing has switched dedup on. */
  lemma AfterOpening(ls: seq<Line>, cs: Chunks, evs: seq<Ev>, n: nat, q: nat, t: int, k: int, w: int, h: int)
    requires LastDedup(ls, cs, evs, n, q, t, k, w, h) && evs[k].action.InitNfqueue?
    ensures !DedupsAt(ls, q, t)
  {
    assert QueueFact(ls[w], h, cs[w][h]);
    forall i | SmoothsAt(ls, i, q, t) ensures false {
      SmoothStarted(ls, cs, evs, n, q, t, k, w, h, i);
      OpenedBefore(ls, cs, i, w);
    }
    forall j | LatestDup(ls, j, q, t) ensures false {
      DupDue(ls, cs, evs, n, q, t, k, w, h, j);
      OpenedBefore(ls, cs, j, w);
    }
  }

  /** The latest write is the start of a smoothing phase. */
  lemma AfterStart(ls: seq<Line>, cs: Chunks, evs: seq<Ev>, n: nat, q: nat, t: int, k: int, w: int, h: int)
    requires LastDedup(ls, cs, evs, n, q, t, k, w, h) && SmoothOn(ls, w, q) && h == SmoothPos(ls[w])
    ensures DedupsAt(ls, q, t)
  {
    assert DedupEvents(ls[w], cs[w]);
    if SmoothEnd(ls[w]) <= t {
      SmoothEnded(ls, cs, evs, n, q, t, k, w, h, w);
    }
    forall j | LatestDup(ls, j, q, t) ensures !LexBefore(ThawTime(ls[w]), w, ls[j].time, j) {
      DupDue(ls, cs, evs, n, q, t, k, w, h, j);
    }
    assert SmoothsAt(ls, w, q, t) && NotSwitchedOff(ls, w, q, t);
  }

  /** The latest write is the end of a smoothing phase. */
  lemma AfterEnd(ls: seq<Line>, cs: Chunks, evs: seq<Ev>, n: nat, q: nat, t: int, k: int, w: int, h: int)
    requires LastDedup(ls, cs, evs, n, q, t, k, w, h) && SmoothsApart(ls, q)
    requires SmoothOn(ls, w, q) && h == SmoothPos(ls[w]) + 1
    ensures !DedupsAt(ls, q, t)
  {
    assert DedupEvents(ls[w], cs[w]);
    assert SmoothEnd(ls[w]) <= t;
    forall i | SmoothsAt(ls, i, q, t) ensures false {
      SmoothStarted(ls, cs, evs, n, q, t, k, w, h, i);
    }
    forall j | LatestDup(ls, j, q, t) && NoneEndedSince(ls, j, q, t) ensures false {
      DupDue(ls, cs, evs, n, q, t, k, w, h, j);
    }
  }

  /** The latest write is a SOL_HANDLEDUP. */
  lemma AfterLine(ls: seq<Line>, cs: Chunks, evs: seq<Ev>, n: nat, q: nat, t: int, k: int, w: int, h: int)
    requires LastDedup(ls, cs, evs, n, q, t, k, w, h) && DupOn(ls, w, q) && h == 0
    ensures DedupsAt(ls, q, t) == ls[w].enable
  {
    assert DedupEvents(ls[w], cs[w]);
    forall j | DupOn(ls, j, q) && ls[j].time <= t ensures j == w || LexBefore(ls[j].time, j, ls[w].time, w) {
      DupDue(ls, cs, evs, n, q, t, k, w, h, j);
    }
    assert LatestDup(ls, w, q, t);
    if ls[w].enable {
      forall i | SmoothOn(ls, i, q) && SmoothEnd(ls[i]) <= t ensures LexBefore(SmoothEnd(ls[i]), i, ls[w].time, w) {
        SmoothEnded(ls, cs, evs, n, q, t, k, w, h, i);
      }
      assert NoneEndedSince(ls, w, q, t);
    } else {
      forall i | SmoothsAt(ls, i, q, t) ensures !NotSwitchedOff(ls, i, q, t) {
        SmoothStarted(ls, cs, evs, n, q, t, k, w, h, i);
      }
      forall j | LatestDup(ls, j, q, t) ensures j == w {}
    }
  }

  lemma DedupWritten(ls: seq<Line>, cs: Chunks, evs: seq<Ev>, n: nat, q: nat, t: int, k: int)
    requires OneInit(ls) && Smoothed(ls, cs) && WithinLife(ls, cs) && SmoothsApart(ls, q)
    requires SortedTrace(cs, evs) && DueBy(evs, n, t) && LastWrite(evs, n, DedupOf(q), k)
    ensures Writes(DedupOf(q), evs[k].action) == Some(Flag(DedupsAt(ls, q, t)))
  {
    var w, h := Origin(cs, evs, k);
    assert QueueFact(ls[w], h, cs[w][h]) && DedupFact(ls[w], h, cs[w][h]);
    if evs[k].action.InitNfqueue? {
      AfterOpening(ls, cs, evs, n, q, t, k, w, h);
    } else if ls[w].HandleDup? {
      AfterLine(ls, cs, evs, n, q, t, k, w, h);
    } else if h == SmoothPos(ls[w]) {
      AfterStart(ls, cs, evs, n, q, t, k, w, h);
    } else {
      AfterEnd(ls, cs, evs, n, q, t, k, w, h);
    }
  }

  /** For every trace whose smoothing phases do not overlap, once all events due by `t` have been
      dispatched, a live queue drops duplicates exactly when `t` lies in the smoothing phase of a SOL_HO
      and no SOL_HANDLEDUP since its start has switched that off, or the latest SOL_HANDLEDUP switched it
      on and no smoothing phase has ended since. */
  lemma DedupSemantics(ls: seq<Line>, evs: seq<Ev>, s: Sys, envs: seq<Env>, q: nat, t: int, j: int)
    requires TraceOk(ls) && SmoothsApart(ls, q) && SortedTrace(Compile(ls), evs) && Fresh(s) && AliveAt(ls, j, q, t)
    requires DueBy(evs, |LoopRun(Begin(s, evs), envs).done|, t)
    ensures var m := LoopRun(Begin(s, evs), envs); Live(m.sys, q) && m.sys.slots[q].w.dedup == DedupsAt(ls, q, t)
  {
    var m := LoopRun(Begin(s, evs), envs);
    var k := TraceLast(ls, evs, s, envs, DedupOf(q), t, j);
    CompileIsSmoothed(ls);
    DedupWritten(ls, Compile(ls), evs, |m.done|, q, t, k);
  }
}
