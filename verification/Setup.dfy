/** What SOL_INIT_SCHED lines set up, read off the trace: the controller's parameters are those of the
    latest one, and a queue rewrites windows exactly as its own latest one says. */
module Setup {
  import opened Machine
  import opened Action
  import opened Scheduler
  import opened Dispatch
  import opened Lifecycle
  import opened Layout
  import opened Registers
  import opened Trace
  import opened Intervals
  import opened Control

  // -------------------------------------------------- over a run of events

  /** The controller works on the worker of `q` with the parameters of `args`; what it remembers of the
      links' windows, and the current period, are its own. */
  predicate Loaded(tcp: Tcp, q: nat, args: SchedArgs) {
    && tcp.worker == Some(q) && tcp.threshold == args.threshold && tcp.pace == args.pace
    && tcp.burstInterval == args.sampleInterval
    && tcp.links.one.rtt == args.one.rtt && tcp.links.two.rtt == args.two.rtt
  }

  /** Among the first `n` events, `k` is the latest that sets the controller up. */
  ghost predicate LatestAttach(evs: seq<Ev>, n: nat, k: int) {
    0 <= k < n <= |evs| && evs[k].action.Attach? && forall j :: k < j < n ==> !evs[j].action.Attach?
  }

  ghost predicate LoadedAt(evs: seq<Ev>, tcp: Tcp, n: nat) {
    forall k :: LatestAttach(evs, n, k) ==> Loaded(tcp, evs[k].action.q, evs[k].action.args)
  }

  lemma PerformLoads(s: Sys, a: Action)
    requires !s.crashed && !Perform(s, a).crashed
    ensures a.Attach? ==> Loaded(Perform(s, a).tcp, a.q, a.args)
    ensures !a.Attach? ==> forall q, args :: Loaded(s.tcp, q, args) ==> Loaded(Perform(s, a).tcp, q, args)
  {}

  lemma EventLoads(evs: seq<Ev>, s: Sys, n: nat)
    requires n < |evs| && LoadedAt(evs, s.tcp, n) && !s.crashed && !Perform(s, evs[n].action).crashed
    ensures LoadedAt(evs, Perform(s, evs[n].action).tcp, n + 1)
  {
    PerformLoads(s, evs[n].action);
    forall k | LatestAttach(evs, n + 1, k)
      ensures Loaded(Perform(s, evs[n].action).tcp, evs[k].action.q, evs[k].action.args)
    {
      if k < n {
        assert LatestAttach(evs, n, k);
      }
    }
  }

  lemma TurnLoads(evs: seq<Ev>, m: Loop, n: nat, env: Env) returns (k: nat)
    requires Sound(evs) && Healthy(evs, m, n) && LoadedAt(evs, m.sys.tcp, n)
    ensures Healthy(evs, LoopStep(m, env), k) && LoadedAt(evs, LoopStep(m, env).sys.tcp, k)
  {
    k := TurnHealthy(evs, m, n, env);
    if Done(m) {
      AtUnique(evs, m, k);
      AtUnique(evs, m, n);
    } else {
      var s := Interfere(m.sys, env);
      AtStep(evs, m, n, env);
      AtUnique(evs, LoopStep(m, env), k);
      InterfereKeeps(m.sys, env);
      if evs[n].time < NextSample(s.tcp) {
        AtUnique(evs, LoopStep(m, env), n + 1);
        EventLoads(evs, s, n);
      } else {
        AtUnique(evs, LoopStep(m, env), n);
        TickKeepsTcp(s.(tcp := s.tcp.(fire := NextSample(s.tcp))));
      }
    }
  }

  /** Over the whole run, the controller has the parameters of the latest set-up dispatched. */
  lemma {:induction false} RunLoads(evs: seq<Ev>, s: Sys, envs: seq<Env>) returns (n: nat)
    requires Sound(evs) && Fresh(s)
    ensures Healthy(evs, LoopRun(Begin(s, evs), envs), n) && LoadedAt(evs, LoopRun(Begin(s, evs), envs).sys.tcp, n)
  {
    if envs == [] {
      n := RunHealthy(evs, s, envs);
      AtUnique(evs, Begin(s, evs), n);
    } else {
      n := RunLoads(evs, s, envs[..|envs| - 1]);
      n := TurnLoads(evs, LoopRun(Begin(s, evs), envs[..|envs| - 1]), n, envs[|envs| - 1]);
    }
  }

  // ---------------------------------------------------------- of the trace

  /** Line `i` is the latest SOL_INIT_SCHED at or before `t`, on any queue. */
  ghost predicate LatestSetUp(ls: seq<Line>, i: int, t: int) {
    && 0 <= i < |ls| && ls[i].InitSched? && ls[i].time <= t
    && forall j :: 0 <= j < |ls| && ls[j].InitSched? && ls[j].time <= t ==> j == i || LexBefore(ls[j].time, j, ls[i].time, i)
  }

  /** Its event is the latest set-up dispatched. */
  lemma SetUpPlaced(ls: seq<Line>, cs: Chunks, evs: seq<Ev>, n: nat, t: int, i: int) returns (k: int)
    requires Compiled(ls, cs) && SortedTrace(cs, evs) && DueBy(evs, n, t) && LatestSetUp(ls, i, t)
    ensures LatestAttach(evs, n, k) && evs[k].action == Attach(ls[i].q, SetUpArgs(ls[i]))
  {
    assert Starts(ls[i], cs[i]);
    k := Placed(cs, evs, i, 0);
    forall y | k < y < n ensures !evs[y].action.Attach? {
      var j, h := Origin(cs, evs, y);
      assert SteerFact(ls[j], h, cs[j][h]);
      PlacedBefore(cs, evs, i, 0, j, h, k, y);
    }
  }

  /** Once all events due by `t` have been dispatched, the controller works on the queue and with the
      threshold, the pace, the burst interval and the round-trip times of the latest SOL_INIT_SCHED,
      whatever handovers, samples and packets came since. */
  lemma SetUpSemantics(ls: seq<Line>, evs: seq<Ev>, s: Sys, envs: seq<Env>, t: int, i: int)
    requires TraceOk(ls) && SortedTrace(Compile(ls), evs) && Fresh(s) && LatestSetUp(ls, i, t)
    requires DueBy(evs, |LoopRun(Begin(s, evs), envs).done|, t)
    ensures Loaded(LoopRun(Begin(s, evs), envs).sys.tcp, ls[i].q, ls[i].args)
  {
    TraceSound(ls, evs);
    CompileIsCompiled(ls);
    var n := RunLoads(evs, s, envs);
    AtUnique(evs, LoopRun(Begin(s, evs), envs), n);
    var k := SetUpPlaced(ls, Compile(ls), evs, n, t, i);
  }

  // ---------------------------------------------------------- at its dispatch

  /** Right at its dispatch, the period, the window and the memory are those of the line's links, link 1
      being the current one; the worker adapts and its counter is empty; and the first sample is due one
      round trip of link 1 after the line's start time. */
  lemma SetUpAtDispatch(ls: seq<Line>, i: int, l: Loop, env: Env)
    requires 0 <= i < |ls| && ls[i].InitSched?
    requires Dispatches(l, CompileLine(ls[i])[0].action) && Live(l.sys, ls[i].q) && !LoopStep(l, env).sys.crashed
    ensures var m, a, q := LoopStep(l, env), ls[i].args, ls[i].q;
            && Linked(m.sys, q) && Loaded(m.sys.tcp, q, a)
            && m.sys.tcp.mark == 1 && m.sys.tcp.links.one == a.one && m.sys.tcp.links.two == a.two
            && m.sys.tcp.interval == a.one.rtt && NextSample(m.sys.tcp) == a.fire + a.one.rtt
            && var v := m.sys.slots[q].w.win;
               v.rwnd == a.one.rw % TWO16 && v.on == a.enable && v.adapt && v.rcvd == 0
  {
    InterfereKeeps(l.sys, env);
  }

  // ------------------------------------------------------- window rewriting

  predicate SetUpOn(ls: seq<Line>, i: int, q: nat) { 0 <= i < |ls| && ls[i].InitSched? && ls[i].q == q }

  ghost predicate LatestSetUpOn(ls: seq<Line>, i: int, q: nat, t: int) {
    && SetUpOn(ls, i, q) && ls[i].time <= t
    && forall j :: SetUpOn(ls, j, q) && ls[j].time <= t ==> j == i || LexBefore(ls[j].time, j, ls[i].time, i)
  }

  ghost predicate RewritesAt(ls: seq<Line>, q: nat, t: int) {
    exists i :: LatestSetUpOn(ls, i, q, t) && ls[i].args.enable
  }

  /** The latest write to the rewrite switch comes from the latest SOL_INIT_SCHED, if one is due. */
  lemma RewriteWriter(ls: seq<Line>, cs: Chunks, evs: seq<Ev>, n: nat, q: nat, t: int, k: int, i: int, h: int, j: int)
    requires OneInit(ls) && Compiled(ls, cs) && WithinLife(ls, cs) && SortedTrace(cs, evs) && DueBy(evs, n, t)
    requires LastWrite(evs, n, RewriteOf(q), k) && Has(cs, i, h) && evs[k] == EvAt(cs, i, h)
    requires SetUpOn(ls, j, q) && ls[j].time <= t
    ensures SetUpOn(ls, i, q) && h == 0 && (j == i || LexBefore(ls[j].time, j, ls[i].time, i))
  {
    assert QueueFact(ls[i], h, cs[i][h]) && SteerFact(ls[i], h, cs[i][h]) && Starts(ls[j], cs[j]);
    var y := Placed(cs, evs, j, 0);
    assert Writes(RewriteOf(q), evs[y].action).Some?;
    PlacedBefore(cs, evs, i, h, j, 0, k, y);
    PlacedBefore(cs, evs, j, 0, i, h, y, k);
    if ls[i].Init? { OpenedBefore(ls, cs, j, i); }
  }

  lemma RewriteWritten(ls: seq<Line>, cs: Chunks, evs: seq<Ev>, n: nat, q: nat, t: int, k: int)
    requires OneInit(ls) && Compiled(ls, cs) && WithinLife(ls, cs) && SortedTrace(cs, evs) && DueBy(evs, n, t)
    requires LastWrite(evs, n, RewriteOf(q), k)
    ensures Writes(RewriteOf(q), evs[k].action) == Some(Flag(RewritesAt(ls, q, t)))
  {
    var i, h := Origin(cs, evs, k);
    assert QueueFact(ls[i], h, cs[i][h]) && SteerFact(ls[i], h, cs[i][h]);
    forall j | SetUpOn(ls, j, q) && ls[j].time <= t
      ensures SetUpOn(ls, i, q) && (j == i || LexBefore(ls[j].time, j, ls[i].time, i))
    {
      RewriteWriter(ls, cs, evs, n, q, t, k, i, h, j);
    }
    if evs[k].action.Attach? {
      assert LatestSetUpOn(ls, i, q, t);
    }
  }

  /** Once all events due by `t` have been dispatched, a live queue rewrites windows exactly when the
      latest SOL_INIT_SCHED of that queue enables it, and not at all before the first. */
  lemma RewriteSemantics(ls: seq<Line>, evs: seq<Ev>, s: Sys, envs: seq<Env>, q: nat, t: int, j: int)
    requires TraceOk(ls) && SortedTrace(Compile(ls), evs) && Fresh(s) && AliveAt(ls, j, q, t)
    requires DueBy(evs, |LoopRun(Begin(s, evs), envs).done|, t)
    ensures var m := LoopRun(Begin(s, evs), envs); Live(m.sys, q) && m.sys.slots[q].w.win.on == RewritesAt(ls, q, t)
  {
    var m := LoopRun(Begin(s, evs), envs);
    var k := TraceLast(ls, evs, s, envs, RewriteOf(q), t, j);
    CompileIsCompiled(ls);
    RewriteWritten(ls, Compile(ls), evs, |m.done|, q, t, k);
  }
}
