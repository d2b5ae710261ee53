/** The phases of a SOL_HO, read off the trace: a freeze from its time on, a burst after it, then
    adaptation. */
module Phases {
  import opened Machine
  import opened Worker
  import opened Action
  import opened Scheduler
  import opened Dispatch
  import opened Lifecycle
  import opened Layout
  import opened Registers
  import opened Trace
  import opened Intervals
  import opened Window

  predicate SolOn(ls: seq<Line>, i: int, q: nat) { 0 <= i < |ls| && ls[i].SolHo? && ls[i].q == q }

  /** The SOL_HOs of a queue do not overlap, and on a tie the file has the ending one first. */
  ghost predicate PhasesApart(ls: seq<Line>, q: nat) {
    forall i, j :: SolOn(ls, i, q) && SolOn(ls, j, q) && i != j ==>
      LexBefore(SettleTime(ls[i]), i, ls[j].time, j) || LexBefore(SettleTime(ls[j]), j, ls[i].time, i)
  }

  /** Time `t` lies in the burst phase of line `i`. */
  predicate BurstsAt(ls: seq<Line>, i: int, q: nat, t: int) {
    SolOn(ls, i, q) && ThawTime(ls[i]) <= t < SettleTime(ls[i])
  }

  /** Time `t` lies in the freeze phase of line `i`, and no SOL_INIT_SCHED has come since. */
  ghost predicate FreezesAt(ls: seq<Line>, i: int, q: nat, t: int) {
    && SolOn(ls, i, q) && ls[i].freeze && ls[i].time <= t < ThawTime(ls[i])
    && forall j :: 0 <= j < |ls| && ls[j].InitSched? && ls[j].q == q && LexBefore(ls[i].time, i, ls[j].time, j)
                   ==> ls[j].time > t
  }

  // ------------------------------------------------------------- the events

  /** The place of the burst events among the events of the line. */
  function OnPos(l: Line): nat
    requires l.SolHo?
  {
    1 + (if l.freeze then 1 else 0) + if l.dedup then 2 else 0
  }

  predicate SolFact(l: Line, k: int, e: Timed) {
    && (e.action.Solution? ==> l.SolHo? && k == 0 && e.time == l.time)
    && (e.action.Freeze? ==> l.SolHo? && k == 1 && e.time == l.time)
    && (e.action.Burst? ==>
          && l.SolHo?
          && ((e.action.mode == 1 && k == OnPos(l) && e.time == ThawTime(l) && l.burstMs > 0)
              || (e.action.mode == 0 && e.time == SettleTime(l))))
    && (e.action.Adapt? ==> l.SolHo? && e.action.mode > 0 && l.adapt > 0 && e.time == SettleTime(l))
  }

  ghost predicate SolEvents(l: Line, c: seq<Timed>) {
    l.SolHo? ==>
      && |c| >= 1 && c[0] == Timed(l.time, Solution(l.q, l.mark))
      && (l.freeze ==> |c| >= 2 && c[1] == Timed(l.time, Freeze(l.q, ToU16(l.mark))))
      && (l.burstMs > 0 ==>
            && |c| >= OnPos(l) + 2 && c[OnPos(l)] == Timed(ThawTime(l), Burst(l.q, 1))
            && c[OnPos(l) + 1] == Timed(SettleTime(l), Burst(l.q, 0)))
      && (l.adapt > 0 ==> c[|c| - 1] == Timed(SettleTime(l), Adapt(l.q, l.adapt)) && |c| > if l.burstMs > 0 then OnPos(l) + 2 else 1)
  }

  ghost predicate Phased(ls: seq<Line>, cs: Chunks) {
    && Compiled(ls, cs)
    && (forall i, k :: Has(cs, i, k) ==> SolFact(ls[i], k, cs[i][k]))
    && (forall i :: 0 <= i < |cs| ==> SolEvents(ls[i], cs[i]))
  }

  lemma SolFacts(l: Line, k: int)
    requires 0 <= k < |CompileLine(l)|
    ensures SolFact(l, k, CompileLine(l)[k])
  {
    if l.SolHo? { SolHoFacts(l, k); }
  }

  lemma SolHoFacts(l: Line, k: int)
    requires l.SolHo? && 0 <= k < |CompileSolHo(l)|
    ensures SolFact(l, k, CompileSolHo(l)[k])
  {}

  lemma SolHoEvents(l: Line)
    requires l.SolHo?
    ensures SolEvents(l, CompileSolHo(l))
  {}

  lemma CompileIsPhased(ls: seq<Line>)
    ensures Phased(ls, Compile(ls))
  {
    var cs := Compile(ls);
    CompileIsCompiled(ls);
    forall i, k | Has(cs, i, k) ensures SolFact(ls[i], k, cs[i][k]) {
      SolFacts(ls[i], k);
    }
    forall i | 0 <= i < |cs| ensures SolEvents(ls[i], cs[i]) {
      if ls[i].SolHo? { SolHoEvents(ls[i]); }
    }
  }

  // ------------------------------------------------------------------ order

  predicate PhaseAction(a: Action) { a.Solution? || a.Freeze? || a.Burst? || a.Adapt? }

  /** While line `i` has not settled, a phase event of another line that is due comes before it. */
  lemma OtherPhaseEarlier(ls: seq<Line>, cs: Chunks, i: int, k: int, j: int, h: int, q: nat, t: int)
    requires Phased(ls, cs) && PhasesApart(ls, q) && SolOn(ls, i, q) && t < SettleTime(ls[i]) && i != j
    requires Has(cs, i, k) && Has(cs, j, h) && ls[i].time <= cs[i][k].time
    requires PhaseAction(cs[j][h].action) && On(cs[j][h].action, q) && cs[j][h].time <= t
    ensures ComesBefore(cs, j, h, i, k)
  {}

  // ------------------------------------------------------------------ bursts

  lemma BurstWhenDue(ls: seq<Line>, cs: Chunks, evs: seq<Ev>, n: nat, q: nat, t: int, i: int, k: int)
    requires OneInit(ls) && Phased(ls, cs) && WithinLife(ls, cs) && PhasesApart(ls, q) && BurstsAt(ls, i, q, t)
    requires SortedTrace(cs, evs) && DueBy(evs, n, t) && LastWrite(evs, n, BurstOf(q), k)
    ensures Writes(BurstOf(q), evs[k].action) == Some(Flag(true))
  {
    assert SolEvents(ls[i], cs[i]);
    var x := Placed(cs, evs, i, OnPos(ls[i]));
    assert Writes(BurstOf(q), evs[x].action).Some?;
    var j, h := Origin(cs, evs, k);
    assert QueueFact(ls[j], h, cs[j][h]) && SolFact(ls[j], h, cs[j][h]);
    PlacedBefore(cs, evs, j, h, i, OnPos(ls[i]), k, x);
    PlacedBefore(cs, evs, i, OnPos(ls[i]), j, h, x, k);
    if x != k {
      if ls[j].Init? {
        OpenedBefore(ls, cs, i, j);
      } else if j != i {
        OtherPhaseEarlier(ls, cs, i, OnPos(ls[i]), j, h, q, t);
      }
    }
  }

  lemma NoBurstWhenNotDue(ls: seq<Line>, cs: Chunks, evs: seq<Ev>, n: nat, q: nat, t: int, k: int)
    requires Phased(ls, cs) && forall i :: !BurstsAt(ls, i, q, t)
    requires SortedTrace(cs, evs) && DueBy(evs, n, t) && LastWrite(evs, n, BurstOf(q), k)
    ensures Writes(BurstOf(q), evs[k].action) == Some(Flag(false))
  {
    var i, h := Origin(cs, evs, k);
    assert QueueFact(ls[i], h, cs[i][h]) && SolFact(ls[i], h, cs[i][h]) && SolEvents(ls[i], cs[i]);
    if evs[k].action.Burst? && evs[k].action.mode == 1 {
      assert !BurstsAt(ls, i, q, t);
      var x := Placed(cs, evs, i, h + 1);
      PlacedBefore(cs, evs, i, h, i, h + 1, k, x);
    }
  }

  /** For every trace whose SOL_HOs do not overlap, once all events due by `t` have been dispatched,
      the controller bursts on a queue exactly when `t` lies in the burst phase of one of them. */
  lemma BurstSemantics(ls: seq<Line>, evs: seq<Ev>, s: Sys, envs: seq<Env>, q: nat, t: int, j: int)
    requires TraceOk(ls) && PhasesApart(ls, q) && SortedTrace(Compile(ls), evs) && Fresh(s) && AliveAt(ls, j, q, t)
    requires DueBy(evs, |LoopRun(Begin(s, evs), envs).done|, t)
    ensures var m := LoopRun(Begin(s, evs), envs);
            && Live(m.sys, q)
            && (m.sys.slots[q].w.win.burst <==> exists i :: BurstsAt(ls, i, q, t))
  {
    var cs, m, r := Compile(ls), LoopRun(Begin(s, evs), envs), BurstOf(q);
    var n := |m.done|;
    var k := TraceLast(ls, evs, s, envs, r, t, j);
    CompileIsPhased(ls);
    if i :| BurstsAt(ls, i, q, t) {
      BurstWhenDue(ls, cs, evs, n, q, t, i, k);
    } else {
      NoBurstWhenNotDue(ls, cs, evs, n, q, t, k);
    }
  }

  // --------------------------------------------------------------- exclusion

  /** No SOL_INIT_SCHED of the queue comes between the start and the end of a burst. */
  ghost predicate NoSetUpInBurst(ls: seq<Line>, q: nat) {
    forall i, j :: SolOn(ls, i, q) && ls[i].burstMs > 0 && 0 <= j < |ls| && ls[j].InitSched? && ls[j].q == q ==>
      LexBefore(ls[j].time, j, ThawTime(ls[i]), i) || LexBefore(SettleTime(ls[i]), i, ls[j].time, j)
  }

  /** While a burst started by event `k` is on, the latest write to the adapt mode switched it off. */
  lemma NoAdaptInBurst(ls: seq<Line>, cs: Chunks, evs: seq<Ev>, n: nat, q: nat, k: int, x: int)
    requires Phased(ls, cs) && NoSetUpInBurst(ls, q) && SortedTrace(cs, evs)
    requires LastWrite(evs, n, BurstOf(q), k) && Writes(BurstOf(q), evs[k].action) == Some(Flag(true))
    requires LastWrite(evs, n, AdaptOf(q), x)
    ensures Writes(AdaptOf(q), evs[x].action) == Some(Flag(false))
  {
    var i, h := Origin(cs, evs, k);
    var j, g := Origin(cs, evs, x);
    assert QueueFact(ls[i], h, cs[i][h]) && SolFact(ls[i], h, cs[i][h]) && SolEvents(ls[i], cs[i]);
    assert SteerFact(ls[j], g, cs[j][g]) && SolFact(ls[j], g, cs[j][g]) && QueueFact(ls[j], g, cs[j][g]);
    assert h == OnPos(ls[i]);
    assert Writes(AdaptOf(q), evs[k].action) == Some(Flag(false));
    var y := Placed(cs, evs, i, h + 1);
    assert Writes(BurstOf(q), evs[y].action).Some?;
    PlacedBefore(cs, evs, i, h, i, h + 1, k, y);
    if evs[x].action.Attach? {
      assert SolOn(ls, i, q);
      PlacedBefore(cs, evs, j, g, i, h, x, k);
      PlacedBefore(cs, evs, i, h + 1, j, g, y, x);
    }
  }

  lemma ReflectedModes(ls: seq<Line>, cs: Chunks, evs: seq<Ev>, n: nat, s: Sys, q: nat)
    requires Phased(ls, cs) && NoSetUpInBurst(ls, q) && SortedTrace(cs, evs) && Live(s, q)
    requires Reflects(evs, s, n, BurstOf(q)) && Reflects(evs, s, n, AdaptOf(q))
    ensures Read(s, BurstOf(q)) == Flag(false) || Read(s, AdaptOf(q)) == Flag(false)
  {
    var k :| LastWrite(evs, n, BurstOf(q), k) && Read(s, BurstOf(q)) == Writes(BurstOf(q), evs[k].action).value;
    var x :| LastWrite(evs, n, AdaptOf(q), x) && Read(s, AdaptOf(q)) == Writes(AdaptOf(q), evs[x].action).value;
    if Read(s, BurstOf(q)) != Flag(false) {
      NoAdaptInBurst(ls, cs, evs, n, q, k, x);
    }
  }

  /** For every trace without a SOL_INIT_SCHED during a burst, burst and adapt are never both on, in
      any reachable state, whatever samples and packets come. */
  lemma ModesExclusive(ls: seq<Line>, evs: seq<Ev>, s: Sys, envs: seq<Env>, q: nat)
    requires TraceOk(ls) && SortedTrace(Compile(ls), evs) && Fresh(s) && NoSetUpInBurst(ls, q)
    requires Live(LoopRun(Begin(s, evs), envs).sys, q)
    ensures var v := LoopRun(Begin(s, evs), envs).sys.slots[q].w.win; !(v.burst && v.adapt)
  {
    var m := LoopRun(Begin(s, evs), envs);
    TraceReflects(ls, evs, s, envs, BurstOf(q));
    TraceReflects(ls, evs, s, envs, AdaptOf(q));
    CompileIsPhased(ls);
    ReflectedModes(ls, Compile(ls), evs, |m.done|, m.sys, q);
  }

  // ----------------------------------------------------------------- freezes

  lemma NoReshapeInFreeze(ls: seq<Line>, cs: Chunks, i: int, j: int, h: int, q: nat, t: int)
    requires OneInit(ls) && Phased(ls, cs) && WithinLife(ls, cs) && PhasesApart(ls, q) && FreezesAt(ls, i, q, t)
    requires Has(cs, i, 1) && Has(cs, j, h) && cs[j][h].time <= t && ComesBefore(cs, i, 1, j, h)
    ensures !Reshapes(cs[j][h].action, q)
  {
    var a := cs[j][h].action;
    assert SolEvents(ls[i], cs[i]) && QueueFact(ls[j], h, cs[j][h]) && SolFact(ls[j], h, cs[j][h])
        && SteerFact(ls[j], h, cs[j][h]);
    if Reshapes(a, q) {
      if ls[j].Init? {
        OpenedBefore(ls, cs, i, j);
      } else if j != i && !a.Attach? {
        OtherPhaseEarlier(ls, cs, i, 1, j, h, q, t);
      }
    }
  }

  /** During the freeze phase of a SOL_HO (with mark 1 or 2) the window is exactly 10 and both modes
      are off, whatever samples and packets come; so every well-formed packet the worker rewrites
      then leaves with the smaller of its own window and 10. */
  lemma FreezeSemantics(ls: seq<Line>, evs: seq<Ev>, s: Sys, envs: seq<Env>, q: nat, t: int, j: int, i: int, p: Packet)
    requires TraceOk(ls) && PhasesApart(ls, q) && SortedTrace(Compile(ls), evs) && Fresh(s) && AliveAt(ls, j, q, t)
    requires DueBy(evs, |LoopRun(Begin(s, evs), envs).done|, t) && FreezesAt(ls, i, q, t)
    ensures var m := LoopRun(Begin(s, evs), envs);
            && Live(m.sys, q)
            && var w := m.sys.slots[q].w;
               && w.win.rwnd == 10 && !w.win.burst && !w.win.adapt
               && (w.win.on && p.RwndReadable() ==> LeavingWindow(w.win, p, w.mark) == Min(p.window, 10))
  {
    var cs, m := Compile(ls), LoopRun(Begin(s, evs), envs);
    TraceSound(ls, evs);
    CompileIsPhased(ls);
    var n := RunHoldsFreeze(evs, s, envs, q);
    AtUnique(evs, m, n);
    LiveBetween(ls, cs, evs, m, n, j, q, t);
    FreezeIsLatest(ls, cs, evs, n, q, t, i);
    var w := m.sys.slots[q].w;
    assert Frozen(w.win);
    if w.win.on && p.RwndReadable() {
      RewrittenWindow(w.win, p, w.mark);
    }
  }

  /** The freeze of a SOL_HO stands right after its first event. */
  lemma FreezePlaced(ls: seq<Line>, cs: Chunks, evs: seq<Ev>, q: nat, i: int) returns (k: int)
    requires Phased(ls, cs) && WellSet(ls, cs) && SortedTrace(cs, evs) && SolOn(ls, i, q) && ls[i].freeze
    ensures 0 < k < |evs| && Has(cs, i, 1) && evs[k] == EvAt(cs, i, 1) && evs[k].time == ls[i].time
    ensures evs[k].action.Freeze? && evs[k].action.q == q && evs[k].action.window <= 10
    ensures evs[k - 1].action.Solution? && evs[k - 1].action.q == q
  {
    assert SolEvents(ls[i], cs[i]);
    assert KnownMark(ls[i].mark);
    k := Placed(cs, evs, i, 1);
    Neighbours(cs, evs, i, 0, k);
  }

  lemma FreezeIsLatest(ls: seq<Line>, cs: Chunks, evs: seq<Ev>, n: nat, q: nat, t: int, i: int)
    requires OneInit(ls) && Phased(ls, cs) && WithinLife(ls, cs) && WellSet(ls, cs) && PhasesApart(ls, q)
    requires FreezesAt(ls, i, q, t) && SortedTrace(cs, evs) && DueBy(evs, n, t)
    ensures FrozenAt(evs, n, q)
  {
    var k := FreezePlaced(ls, cs, evs, q, i);
    forall y | k < y < n ensures !Reshapes(evs[y].action, q) {
      NoReshapeSince(ls, cs, evs, n, q, t, i, k, y);
    }
    assert JustFrozen(evs, n, q, k);
  }

  lemma NoReshapeSince(ls: seq<Line>, cs: Chunks, evs: seq<Ev>, n: nat, q: nat, t: int, i: int, k: int, y: int)
    requires OneInit(ls) && Phased(ls, cs) && WithinLife(ls, cs) && PhasesApart(ls, q)
    requires FreezesAt(ls, i, q, t) && SortedTrace(cs, evs) && DueBy(evs, n, t)
    requires Has(cs, i, 1) && 0 <= k < y < n && evs[k] == EvAt(cs, i, 1)
    ensures !Reshapes(evs[y].action, q)
  {
    var j, h := Origin(cs, evs, y);
    PlacedBefore(cs, evs, i, 1, j, h, k, y);
    NoReshapeInFreeze(ls, cs, i, j, h, q, t);
  }
}
