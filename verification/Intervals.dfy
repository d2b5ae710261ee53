/** Compiling, sorting and running a trace refines a simple interval semantics: when a queue is
    stopped and which mark it gives, read off the trace lines. */
module Intervals {
  import opened Machine
  import opened Worker
  import opened Action
  import opened Scheduler
  import opened Dispatch
  import opened Lifecycle
  import opened Layout
  import opened Registers
  import opened Trace
  import Nfqueue

  // ------------------------------------------------------ the specification

  predicate HoOn(ls: seq<Line>, i: int, q: nat) { 0 <= i < |ls| && ls[i].Ho? && ls[i].q == q }

  /** Time `t` lies in the gap of handover `i`. */
  predicate Covers(ls: seq<Line>, i: int, q: nat, t: int) {
    HoOn(ls, i, q) && ls[i].time <= t < ls[i].time + ls[i].gap
  }

  ghost predicate StoppedAt(ls: seq<Line>, q: nat, t: int) { exists i :: Covers(ls, i, q, t) }

  /** Line `i` is the latest handover of the queue at or before `t`. */
  ghost predicate LatestHo(ls: seq<Line>, i: int, q: nat, t: int) {
    && HoOn(ls, i, q) && ls[i].time <= t
    && forall j :: HoOn(ls, j, q) && ls[j].time <= t ==> j == i || LexBefore(ls[j].time, j, ls[i].time, i)
  }

  /** The handovers of a queue do not overlap, and on a tie the file has the ending one first. */
  ghost predicate GapsApart(ls: seq<Line>, q: nat) {
    forall i, j :: HoOn(ls, i, q) && HoOn(ls, j, q) && i != j ==>
      || LexBefore(ls[i].time + ls[i].gap, i, ls[j].time, j)
      || LexBefore(ls[j].time + ls[j].gap, j, ls[i].time, i)
  }

  /** The first `n` events are those due at or before `t`. */
  ghost predicate DueBy(evs: seq<Ev>, n: nat, t: int) {
    && n <= |evs|
    && (forall x :: 0 <= x < n ==> evs[x].time <= t)
    && (forall x :: n <= x < |evs| ==> evs[x].time > t)
  }

  /** Line `j` opened queue `q`, which has not reached its end at time `t`. */
  predicate AliveAt(ls: seq<Line>, j: int, q: nat, t: int) {
    0 <= j < |ls| && ls[j].Init? && ls[j].q == q && ls[j].time <= t < ls[j].end
  }

  // ------------------------------------------------------------- the events

  /** Where starts, stops and marks come from. */
  predicate StatusFact(l: Line, k: int, e: Timed) {
    && (e.action.StopNfqueue? ==> l.Ho? && k == 0 && e.time == l.time)
    && (e.action.StartNfqueue? ==> (l.Ho? && k == 1 && e.time == l.time + l.gap) || (l.Init? && k == 2))
    && (e.action.Set? && e.action.setter.SetMark? ==>
          && ((l.Ho? && k == 2) || (l.Init? && k == 3 && l.mark > 0))
          && e.time == l.time && e.action.setter.mark == ToU32(l.mark))
  }

  ghost predicate HoEvents(l: Line, c: seq<Timed>) {
    && (l.Ho? ==>
          && |c| >= 3 && c[0] == Timed(l.time, StopNfqueue(l.q)) && c[1] == Timed(l.time + l.gap, StartNfqueue(l.q))
          && c[2] == Timed(l.time, Set(l.q, SetMark(ToU32(l.mark)))))
    && (l.Init? && l.mark > 0 ==> |c| == 4 && c[3] == Timed(l.time, Set(l.q, SetMark(ToU32(l.mark)))))
  }

  ghost predicate Sourced(ls: seq<Line>, cs: Chunks) {
    && Compiled(ls, cs)
    && (forall i, k :: Has(cs, i, k) ==> StatusFact(ls[i], k, cs[i][k]))
    && (forall i :: 0 <= i < |cs| ==> HoEvents(ls[i], cs[i]))
  }

  lemma StatusFacts(l: Line, k: int)
    requires 0 <= k < |CompileLine(l)|
    ensures StatusFact(l, k, CompileLine(l)[k])
  {
    if l.SolHo? { SolHoStatus(l, k); } else if l.Ho? { HoStatus(l, k); }
  }

  lemma SolHoStatus(l: Line, k: int)
    requires l.SolHo? && 0 <= k < |CompileSolHo(l)|
    ensures StatusFact(l, k, CompileSolHo(l)[k])
  {}

  lemma HoStatus(l: Line, k: int)
    requires l.Ho? && 0 <= k < |CompileHo(l)|
    ensures StatusFact(l, k, CompileHo(l)[k])
  {}

  lemma CompileIsSourced(ls: seq<Line>)
    ensures Sourced(ls, Compile(ls))
  {
    var cs := Compile(ls);
    CompileIsCompiled(ls);
    forall i, k | Has(cs, i, k) ensures StatusFact(ls[i], k, cs[i][k]) {
      StatusFacts(ls[i], k);
    }
  }

  /** The opening line of a queue comes before all its other lines. */
  lemma OpenedBefore(ls: seq<Line>, cs: Chunks, i: int, j: int)
    requires OneInit(ls) && |cs| == |ls| && WithinLife(ls, cs)
    requires 0 <= i < |ls| && 0 <= j < |ls| && ls[j].Init? && HasQueue(ls[i]) && ls[i].q == ls[j].q && !ls[i].Init?
    ensures LexBefore(ls[j].time, j, ls[i].time, i)
  {}

  // ------------------------------------------------------------------ stops

  /** A start (or opening) does not come after the stop of a handover that covers `t`. */
  lemma NoStartAfterStop(ls: seq<Line>, cs: Chunks, i: int, j: int, h: int, q: nat, t: int)
    requires OneInit(ls) && Sourced(ls, cs) && WithinLife(ls, cs) && GapsApart(ls, q) && Covers(ls, i, q, t)
    requires Has(cs, i, 0) && Has(cs, j, h) && cs[j][h].time <= t && On(cs[j][h].action, q)
    requires cs[j][h].action.StartNfqueue? || cs[j][h].action.InitNfqueue?
    ensures !ComesBefore(cs, i, 0, j, h)
  {
    assert QueueFact(ls[j], h, cs[j][h]) && StatusFact(ls[j], h, cs[j][h]) && HoEvents(ls[i], cs[i]);
    if ls[j].Init? {
      OpenedBefore(ls, cs, i, j);
    } else if i != j {
      assert HoOn(ls, j, q);
    }
  }

  /** If `t` lies in a gap, the latest status write is a stop. */
  lemma StoppedWhenCovered(ls: seq<Line>, cs: Chunks, evs: seq<Ev>, n: nat, q: nat, t: int, i: int, k: int)
    requires OneInit(ls) && Sourced(ls, cs) && WithinLife(ls, cs) && GapsApart(ls, q) && Covers(ls, i, q, t)
    requires SortedTrace(cs, evs) && DueBy(evs, n, t) && LastWrite(evs, n, StatusOf(q), k)
    ensures Writes(StatusOf(q), evs[k].action) == Some(Status(Nfqueue.Stopped))
  {
    assert HoEvents(ls[i], cs[i]);
    var x := Placed(cs, evs, i, 0);
    var j, h := Origin(cs, evs, k);
    PlacedBefore(cs, evs, i, 0, j, h, x, k);
    assert Writes(StatusOf(q), evs[x].action).Some?;
    if x != k {
      if evs[k].action.StartNfqueue? || evs[k].action.InitNfqueue? {
        NoStartAfterStop(ls, cs, i, j, h, q, t);
      }
    }
  }

  /** If it lies in no gap, the latest status write is a start. */
  lemma RunningWhenNotCovered(ls: seq<Line>, cs: Chunks, evs: seq<Ev>, n: nat, q: nat, t: int, k: int)
    requires Sourced(ls, cs) && !StoppedAt(ls, q, t)
    requires SortedTrace(cs, evs) && DueBy(evs, n, t) && LastWrite(evs, n, StatusOf(q), k)
    ensures Writes(StatusOf(q), evs[k].action) == Some(Status(Nfqueue.Running))
  {
    var i, h := Origin(cs, evs, k);
    assert QueueFact(ls[i], h, cs[i][h]) && StatusFact(ls[i], h, cs[i][h]) && HoEvents(ls[i], cs[i]) && Starts(ls[i], cs[i]);
    if evs[k].action.StopNfqueue? {
      assert !Covers(ls, i, q, t);
      var x := Placed(cs, evs, i, 1);
      PlacedBefore(cs, evs, i, 0, i, 1, k, x);
    } else if evs[k].action.InitNfqueue? {
      var x := Placed(cs, evs, i, 2);
      PlacedBefore(cs, evs, i, 0, i, 2, k, x);
    }
  }

  /** An opened queue whose end has not come is live. */
  lemma LiveBetween(ls: seq<Line>, cs: Chunks, evs: seq<Ev>, m: Loop, n: nat, j: int, q: nat, t: int)
    requires OneInit(ls) && Compiled(ls, cs) && SortedTrace(cs, evs) && Healthy(evs, m, n) && DueBy(evs, n, t)
    requires AliveAt(ls, j, q, t)
    ensures Live(m.sys, q)
  {
    assert Starts(ls[j], cs[j]);
    var x := Placed(cs, evs, j, 0);
    assert x < n && InitOf(evs[x].action, q);
    assert Opened(evs, n, q);
    forall y | 0 <= y < n ensures !TeardownOf(evs[y].action, q) {
      var i, k := Origin(cs, evs, y);
      assert QueueFact(ls[i], k, cs[i][k]);
    }
    assert !Closed(evs, n, q);
  }

  /** After any run of a well-formed trace, a register holds the latest value dispatched to it. */
  lemma TraceReflects(ls: seq<Line>, evs: seq<Ev>, s: Sys, envs: seq<Env>, r: Reg)
    requires TraceOk(ls) && SortedTrace(Compile(ls), evs) && Fresh(s)
    ensures var m := LoopRun(Begin(s, evs), envs);
            Healthy(evs, m, |m.done|) && Reflects(evs, m.sys, |m.done|, r)
  {
    TraceSound(ls, evs);
    var n := RunReflects(evs, s, envs, r);
    AtUnique(evs, LoopRun(Begin(s, evs), envs), n);
  }

  /** Event `k`, the `h`-th of line `w`, is the latest write due by `t`: no other write due comes later. */
  lemma NoneLater(cs: Chunks, evs: seq<Ev>, n: nat, r: Reg, t: int, k: int, w: int, h: int, i: int, g: int)
    requires SortedTrace(cs, evs) && DueBy(evs, n, t) && LastWrite(evs, n, r, k) && Has(cs, w, h) && evs[k] == EvAt(cs, w, h)
    requires Has(cs, i, g) && Writes(r, cs[i][g].action).Some? && cs[i][g].time <= t
    ensures (i == w && g == h) || ComesBefore(cs, i, g, w, h)
  {
    var x := Placed(cs, evs, i, g);
    PlacedBefore(cs, evs, i, g, w, h, x, k);
    if x == k { SameEvent(cs, i, g, w, h); }
  }

  /** The event that wrote what a register of a live queue holds once all events due by `t` have been
      dispatched. */
  lemma TraceLast(ls: seq<Line>, evs: seq<Ev>, s: Sys, envs: seq<Env>, r: Reg, t: int, j: int) returns (k: int)
    requires TraceOk(ls) && SortedTrace(Compile(ls), evs) && Fresh(s) && AliveAt(ls, j, r.q, t)
    requires DueBy(evs, |LoopRun(Begin(s, evs), envs).done|, t)
    ensures var m := LoopRun(Begin(s, evs), envs);
            && !m.sys.crashed && Live(m.sys, r.q)
            && LastWrite(evs, |m.done|, r, k) && Read(m.sys, r) == Writes(r, evs[k].action).value
  {
    var m := LoopRun(Begin(s, evs), envs);
    TraceReflects(ls, evs, s, envs, r);
    CompileIsCompiled(ls);
    LiveBetween(ls, Compile(ls), evs, m, |m.done|, j, r.q, t);
    k :| LastWrite(evs, |m.done|, r, k) && Read(m.sys, r) == Writes(r, evs[k].action).value;
  }

  /** For every trace with one INIT per queue and handovers that do not overlap, once all events due
      by `t` have been dispatched, a queue between its opening and its end is stopped exactly when
      `t` lies in the gap of one of its handovers, and running otherwise; whatever the sampler and
      the packets do. */
  lemma GapSemantics(ls: seq<Line>, evs: seq<Ev>, s: Sys, envs: seq<Env>, q: nat, t: int, j: int)
    requires TraceOk(ls) && GapsApart(ls, q) && SortedTrace(Compile(ls), evs) && Fresh(s) && AliveAt(ls, j, q, t)
    requires DueBy(evs, |LoopRun(Begin(s, evs), envs).done|, t)
    ensures var m := LoopRun(Begin(s, evs), envs);
            && !m.sys.crashed && Live(m.sys, q)
            && m.sys.slots[q].status == if StoppedAt(ls, q, t) then Nfqueue.Stopped else Nfqueue.Running
  {
    var cs, m, r := Compile(ls), LoopRun(Begin(s, evs), envs), StatusOf(q);
    var n := |m.done|;
    var k := TraceLast(ls, evs, s, envs, r, t, j);
    CompileIsSourced(ls);
    if StoppedAt(ls, q, t) {
      var i :| Covers(ls, i, q, t);
      StoppedWhenCovered(ls, cs, evs, n, q, t, i, k);
    } else {
      RunningWhenNotCovered(ls, cs, evs, n, q, t, k);
    }
  }

  // ------------------------------------------------------------------ marks

  /** The mark a line sets: an INIT without a positive mark leaves the worker's 0. */
  function MarkOfLine(l: Line): u32
    requires l.Ho? || l.Init?
  {
    if l.Init? && l.mark <= 0 then 0 else ToU32(l.mark)
  }

  lemma MarkFromHo(ls: seq<Line>, cs: Chunks, evs: seq<Ev>, n: nat, q: nat, t: int, i: int, k: int)
    requires OneInit(ls) && Sourced(ls, cs) && WithinLife(ls, cs) && LatestHo(ls, i, q, t)
    requires SortedTrace(cs, evs) && DueBy(evs, n, t) && LastWrite(evs, n, MarkOf(q), k)
    ensures Writes(MarkOf(q), evs[k].action) == Some(Mark(ToU32(ls[i].mark)))
  {
    assert HoEvents(ls[i], cs[i]);
    var x := Placed(cs, evs, i, 2);
    assert Writes(MarkOf(q), evs[x].action).Some?;
    var j, h := Origin(cs, evs, k);
    PlacedBefore(cs, evs, i, 2, j, h, x, k);
    assert QueueFact(ls[j], h, cs[j][h]) && StatusFact(ls[j], h, cs[j][h]);
    if x != k {
      if ls[j].Init? {
        OpenedBefore(ls, cs, i, j);
      }
    }
  }

  lemma MarkFromInit(ls: seq<Line>, cs: Chunks, evs: seq<Ev>, n: nat, q: nat, t: int, j: int, k: int)
    requires OneInit(ls) && Sourced(ls, cs) && AliveAt(ls, j, q, t)
    requires forall i :: HoOn(ls, i, q) ==> ls[i].time > t
    requires SortedTrace(cs, evs) && DueBy(evs, n, t) && LastWrite(evs, n, MarkOf(q), k)
    ensures Writes(MarkOf(q), evs[k].action) == Some(Mark(MarkOfLine(ls[j])))
  {
    var i, h := Origin(cs, evs, k);
    assert QueueFact(ls[i], h, cs[i][h]) && StatusFact(ls[i], h, cs[i][h]) && HoEvents(ls[j], cs[j]);
    assert ls[i].Init?;
    assert i == j;
    if ls[j].mark > 0 {
      var x := Placed(cs, evs, j, 3);
      PlacedBefore(cs, evs, j, h, j, 3, k, x);
      assert Writes(MarkOf(q), evs[x].action).Some?;
    }
  }

  /** And the mark it gives is that of the latest handover at or before `t`, or else that of its
      INIT; for every trace, overlapping or not. */
  lemma MarkSemantics(ls: seq<Line>, evs: seq<Ev>, s: Sys, envs: seq<Env>, q: nat, t: int, j: int)
    requires TraceOk(ls) && SortedTrace(Compile(ls), evs) && Fresh(s) && AliveAt(ls, j, q, t)
    requires DueBy(evs, |LoopRun(Begin(s, evs), envs).done|, t)
    ensures var m := LoopRun(Begin(s, evs), envs);
            && Live(m.sys, q)
            && (forall i :: LatestHo(ls, i, q, t) ==> m.sys.slots[q].w.mark == ToU32(ls[i].mark))
            && ((forall i :: HoOn(ls, i, q) ==> ls[i].time > t) ==> m.sys.slots[q].w.mark == MarkOfLine(ls[j]))
    ensures (exists i :: LatestHo(ls, i, q, t)) || forall i :: HoOn(ls, i, q) ==> ls[i].time > t
  {
    var h := LatestHoExists(ls, q, t, |ls|);
    assert h >= 0 ==> LatestHo(ls, h, q, t);
    var cs, m, r := Compile(ls), LoopRun(Begin(s, evs), envs), MarkOf(q);
    var n := |m.done|;
    var k := TraceLast(ls, evs, s, envs, r, t, j);
    CompileIsSourced(ls);
    forall i | LatestHo(ls, i, q, t) ensures m.sys.slots[q].w.mark == ToU32(ls[i].mark) {
      MarkFromHo(ls, cs, evs, n, q, t, i, k);
    }
    if forall i :: HoOn(ls, i, q) ==> ls[i].time > t {
      MarkFromInit(ls, cs, evs, n, q, t, j, k);
    }
  }

  /** There is always exactly one of the two: either no handover is due, or one is the latest. */
  lemma {:induction false} LatestHoExists(ls: seq<Line>, q: nat, t: int, n: nat) returns (i: int)
    requires n <= |ls|
    ensures i < 0 ==> forall j :: 0 <= j < n && HoOn(ls, j, q) ==> ls[j].time > t
    ensures i >= 0 ==>
              && i < n && HoOn(ls, i, q) && ls[i].time <= t
              && forall j :: 0 <= j < n && HoOn(ls, j, q) && ls[j].time <= t ==>
                   j == i || LexBefore(ls[j].time, j, ls[i].time, i)
  {
    i := -1;
    if n > 0 {
      i := LatestHoExists(ls, q, t, n - 1);
      if HoOn(ls, n - 1, q) && ls[n - 1].time <= t && (i < 0 || ls[i].time <= ls[n - 1].time) {
        i := n - 1;
      }
    }
  }
}
