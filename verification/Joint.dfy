/** The packet thread of one queue inside the dispatch loop: the loop's actions and samples are setter
    calls between its steps, so what holds over all interleavings holds of the whole system. */
module Joint {
  import opened Machine
  import opened Worker
  import P = Pipeline
  import opened Reordering
  import opened Action
  import opened Dispatch
  import opened Lifecycle
  import opened Control

  // -------------------------------------------------- actions as setter calls

  /** The calls an action makes on the worker of `q`. */
  function ActionCalls(s: Sys, a: Action, q: nat): seq<Setter>
    requires Live(s, q)
  {
    if !On(a, q) then [] else
    match a
    case Set(_, x) => [x]
    case Solution(_, m) => [SetWin(SolUpdate(DoSolution(CtlOf(s, q), m).tcp.links.Get(m).rw))]
    case Freeze(_, r) => [SetWin(SetRwnd(Max(r, 10)))]
    case Burst(_, mode) => [SetWin(SetBurst(mode, Remembered(s.tcp)))]
    case Adapt(_, mode) => [SetWin(SetAdapt(mode, Remembered(s.tcp)))]
    case Attach(_, args) =>
      [SetWin(InitTcpSched(args.enable)), SetWin(SetRwnd(ToU16(Links(s.tcp.links.zero, args.one, args.two).Get(args.mark).rw)))]
    case _ => []
  }

  /** The call a sample makes on the worker of `q`, if the sampler is linked to it. */
  function SampleCalls(s: Sys, q: nat): seq<Setter>
    requires Live(s, q)
  {
    if s.tcp.worker == Some(q) then [SetWin(Sampled(SampledWindow(CtlOf(s, q))))] else []
  }

  function ApplyAll(w: WorkerState, xs: seq<Setter>): WorkerState {
    if xs == [] then w else Apply(ApplyAll(w, xs[..|xs| - 1]), xs[|xs| - 1])
  }

  lemma ApplyFew(w: WorkerState, x: Setter, y: Setter)
    ensures ApplyAll(w, [x]) == Apply(w, x) && ApplyAll(w, [x, y]) == Apply(Apply(w, x), y)
  {
    assert [x][..0] == [] && [x, y][..1] == [x];
  }

  lemma ActionIsCalls(s: Sys, a: Action, q: nat)
    requires Live(s, q) && !s.crashed && !Perform(s, a).crashed && !InitOf(a, q) && !TeardownOf(a, q)
    ensures Live(Perform(s, a), q) && Perform(s, a).slots[q].w == ApplyAll(s.slots[q].w, ActionCalls(s, a, q))
  {
    var w, xs := s.slots[q].w, ActionCalls(s, a, q);
    if |xs| == 1 {
      assert xs == [xs[0]];
      ApplyFew(w, xs[0], xs[0]);
    } else if |xs| == 2 {
      assert xs == [xs[0], xs[1]];
      ApplyFew(w, xs[0], xs[1]);
    }
  }

  lemma SampleIsCalls(s: Sys, q: nat, fire: int)
    requires Live(s, q) && !s.crashed && !Tick(s.(tcp := s.tcp.(fire := fire))).crashed
    ensures var u := Tick(s.(tcp := s.tcp.(fire := fire)));
            Live(u, q) && u.slots[q].w == ApplyAll(s.slots[q].w, SampleCalls(s, q))
  {
    var xs := SampleCalls(s, q);
    if xs != [] {
      assert xs == [xs[0]];
      ApplyFew(s.slots[q].w, xs[0], xs[0]);
    }
  }

  // ------------------------------------------------------- turns of the loop

  function TurnCalls(m: Loop, env: Env, q: nat): seq<Setter> {
    if Done(m) || !Live(m.sys, q) then [] else
    var s := Interfere(m.sys, env);
    if m.todo[0].time < NextSample(m.sys.tcp) then ActionCalls(s, m.todo[0].action, q) else SampleCalls(s, q)
  }

  function Calls(xs: seq<Setter>): (r: seq<P.Event>)
    ensures |r| == |xs|
  {
    seq(|xs|, i requires 0 <= i < |xs| => P.Set(xs[i]))
  }

  /** What happens to the worker of `q` over a run: before each turn the packet steps `pks`, then the
      calls of the turn. */
  function Events(l: Loop, envs: seq<Env>, pks: seq<seq<P.Event>>, q: nat): seq<P.Event>
    requires |pks| == |envs|
  {
    if envs == [] then [] else
    var n := |envs| - 1;
    Events(l, envs[..n], pks[..n], q) + (pks[n] + Calls(TurnCalls(LoopRun(l, envs[..n]), envs[n], q)))
  }

  /** Before turn `n`, what the loop sees of the packets of `q` is what the steps `pks[n]` have done, and
      a call to arm the reorder stage has waited for its lock. */
  ghost predicate TrafficIs(l: Loop, envs: seq<Env>, pks: seq<seq<P.Event>>, q: nat, pipe: P.Pipe, n: nat)
    requires n < |pks| == |envs|
  {
    var m, t := LoopRun(l, envs[..n]), P.Run(P.Run(pipe, Events(l, envs[..n], pks[..n], q)), pks[n]);
    if Done(m) || !Live(m.sys, q) then pks[n] == []
    else
      && Interfere(m.sys, envs[n]).slots[q].w == t.w
      && (t.pc.Releasing? ==> forall x :: x in TurnCalls(m, envs[n], q) ==> !x.SetReorder?)
      && forall e :: e in pks[n] ==> !e.Set?
  }

  ghost predicate Tells(l: Loop, envs: seq<Env>, pks: seq<seq<P.Event>>, q: nat, pipe: P.Pipe) {
    |pks| == |envs| && forall n :: 0 <= n < |envs| ==> TrafficIs(l, envs, pks, q, pipe, n)
  }

  lemma TellsBefore(l: Loop, envs: seq<Env>, pks: seq<seq<P.Event>>, q: nat, pipe: P.Pipe)
    requires envs != [] && Tells(l, envs, pks, q, pipe)
    ensures Tells(l, envs[..|envs| - 1], pks[..|envs| - 1], q, pipe)
  {
    var k := |envs| - 1;
    forall n | 0 <= n < k ensures TrafficIs(l, envs[..k], pks[..k], q, pipe, n) {
      assert TrafficIs(l, envs, pks, q, pipe, n);
      assert envs[..k][..n] == envs[..n] && pks[..k][..n] == pks[..n];
    }
  }

  /** Whatever the packets do, there is a way for the loop to see it. */
  lemma SomeTraffic(s: Sys, q: nat, t: P.Pipe, es: seq<P.Event>) returns (env: Env)
    requires Live(s, q) && s.slots[q].w == t.w && forall e :: e in es ==> !e.Set?
    ensures Interfere(s, env).slots[q].w == P.Run(t, es).w
  {
    PacketsAreTraffic(t, es);
    var x :| P.Run(t, es).w == Disturb(t.w, x);
    env := map[q := x];
  }

  lemma {:induction false} CallsApply(t: P.Pipe, xs: seq<Setter>)
    requires t.pc.Releasing? ==> forall x :: x in xs ==> !x.SetReorder?
    ensures P.Run(t, Calls(xs)).w == ApplyAll(t.w, xs) && P.Run(t, Calls(xs)).pc == t.pc
  {
    if xs != [] {
      var n := |xs| - 1;
      assert Calls(xs)[..n] == Calls(xs[..n]);
      CallsApply(t, xs[..n]);
      assert xs[n] in xs;
    }
  }

  /** No action opens or closes `q`. */
  predicate KeptOpen(l: Loop, m: Loop, q: nat) {
    forall i :: |l.done| <= i < |m.done| ==> !InitOf(m.done[i].action, q) && !TeardownOf(m.done[i].action, q)
  }

  lemma TurnIsCalls(m: Loop, env: Env, q: nat)
    requires !Done(m) && Live(m.sys, q) && !LoopStep(m, env).sys.crashed
    requires m.todo[0].time < NextSample(m.sys.tcp) ==> !InitOf(m.todo[0].action, q) && !TeardownOf(m.todo[0].action, q)
    ensures var u := LoopStep(m, env);
            Live(u.sys, q) && u.sys.slots[q].w == ApplyAll(Interfere(m.sys, env).slots[q].w, TurnCalls(m, env, q))
  {
    var s := Interfere(m.sys, env);
    InterfereKeeps(m.sys, env);
    if m.todo[0].time < NextSample(m.sys.tcp) {
      ActionIsCalls(s, m.todo[0].action, q);
    } else {
      SampleIsCalls(s, q, NextSample(s.tcp));
    }
  }

  lemma OpenEarlier(l: Loop, m: Loop, n: Loop, q: nat)
    requires KeptOpen(l, n, q) && (n.done == m.done || (m.todo != [] && n.done == m.done + [m.todo[0]]))
    ensures KeptOpen(l, m, q)
    ensures n.done != m.done && |l.done| <= |m.done| ==> !InitOf(m.todo[0].action, q) && !TeardownOf(m.todo[0].action, q)
  {
    assert forall i :: 0 <= i < |m.done| ==> n.done[i] == m.done[i];
    if n.done != m.done {
      assert n.done[|m.done|] == m.todo[0];
    }
  }

  /** Over any run of the loop in which `q` is neither opened nor closed, its worker is in the state that
      its packet thread, interleaved with the calls read off the turns, has brought it to. */
  lemma {:induction false} LoopIsPipe(l: Loop, envs: seq<Env>, pks: seq<seq<P.Event>>, q: nat, pipe: P.Pipe)
    requires Live(l.sys, q) && l.sys.slots[q].w == pipe.w && Tells(l, envs, pks, q, pipe)
    requires KeptOpen(l, LoopRun(l, envs), q) && !LoopRun(l, envs).sys.crashed
    ensures var m := LoopRun(l, envs); Live(m.sys, q) && m.sys.slots[q].w == P.Run(pipe, Events(l, envs, pks, q)).w
  {
    if envs != [] {
      var n := |envs| - 1;
      var m, k, es := LoopRun(l, envs[..n]), LoopRun(l, envs), Events(l, envs[..n], pks[..n], q);
      DoneGrows(l, envs[..n]);
      if !Done(m) { TurnDone(m, envs[n]); }
      OpenEarlier(l, m, k, q);
      TellsBefore(l, envs, pks, q, pipe);
      LoopIsPipe(l, envs[..n], pks[..n], q, pipe);
      assert TrafficIs(l, envs, pks, q, pipe, n);
      PipeTurn(m, envs[n], pks[n], q, pipe, es);
    }
  }

  lemma PipeTurn(m: Loop, env: Env, pk: seq<P.Event>, q: nat, pipe: P.Pipe, es: seq<P.Event>)
    requires Live(m.sys, q) && m.sys.slots[q].w == P.Run(pipe, es).w && !LoopStep(m, env).sys.crashed
    requires !Done(m) && m.todo[0].time < NextSample(m.sys.tcp) ==> !InitOf(m.todo[0].action, q) && !TeardownOf(m.todo[0].action, q)
    requires var t := P.Run(P.Run(pipe, es), pk);
             if Done(m) then pk == []
             else Interfere(m.sys, env).slots[q].w == t.w
                  && (t.pc.Releasing? ==> forall x :: x in TurnCalls(m, env, q) ==> !x.SetReorder?)
    ensures var k := LoopStep(m, env);
            Live(k.sys, q) && k.sys.slots[q].w == P.Run(pipe, es + (pk + Calls(TurnCalls(m, env, q)))).w
  {
    var t, xs := P.Run(pipe, es), TurnCalls(m, env, q);
    RunConcat(pipe, es, pk + Calls(xs));
    RunConcat(t, pk, Calls(xs));
    if Done(m) {
      assert [] + Calls(xs) == [] && es + [] == es;
    } else {
      TurnIsCalls(m, env, q);
      CallsApply(P.Run(t, pk), xs);
    }
  }
}
