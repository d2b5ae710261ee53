/** The whole system, from the trace to the packets: the mark they leave with, the effect of a handover,
    and the bytes the sampler consumes, over runs of the dispatch loop with its packet threads. */
module Whole {
  import opened Machine
  import opened Worker
  import P = Pipeline
  import A = Acks
  import opened Verdicts
  import opened Reordering
  import opened Action
  import opened Scheduler
  import opened Dispatch
  import opened Lifecycle
  import opened Layout
  import opened Trace
  import opened Intervals
  import opened Handover
  import opened Control
  import opened Joint

  // ------------------------------------------------------------------- marks

  /** Once all events due by `t` have been dispatched, and until the mark is next set, every packet a live
      queue accepts leaves with the mark of the latest handover at or before `t`, or else that of its
      INIT, whatever else happens to the queue and wherever its packet thread was. */
  lemma MarksOnPackets(ls: seq<Line>, evs: seq<Ev>, s: Sys, envs: seq<Env>, q: nat, t: int, j: int, pipe: P.Pipe, es: seq<P.Event>)
    requires TraceOk(ls) && SortedTrace(Compile(ls), evs) && Fresh(s) && AliveAt(ls, j, q, t)
    requires DueBy(evs, |LoopRun(Begin(s, evs), envs).done|, t)
    requires var m := LoopRun(Begin(s, evs), envs); Live(m.sys, q) ==> pipe.w == m.sys.slots[q].w
    requires forall e :: e in es && e.Set? ==> !e.setter.SetMark?
    ensures pipe.log <= P.Run(pipe, es).log
    ensures var vs := P.Run(pipe, es).log[|pipe.log|..];
            && (forall i :: LatestHo(ls, i, q, t) ==> Stamped(vs, ToU32(ls[i].mark)))
            && ((forall i :: HoOn(ls, i, q) ==> ls[i].time > t) ==> Stamped(vs, MarkOfLine(ls[j])))
  {
    MarkSemantics(ls, evs, s, envs, q, t, j);
    MarkStays(pipe, es);
  }

  // --------------------------------------------------------------- handovers

  /** Of the calls made on `q` none is to its drop, reorder or dedup stage. */
  predicate GentleSince(l: Loop, m: Loop, q: nat) {
    forall i :: |l.done| <= i < |m.done| && m.done[i].action.Set? && m.done[i].action.q == q ==> m.done[i].action.setter.SetMark?
  }

  lemma GentleTurn(m: Loop, env: Env, q: nat, x: Setter)
    requires x in TurnCalls(m, env, q)
    requires var a := m.todo[0].action;
             m.todo[0].time < NextSample(m.sys.tcp) && a.Set? && a.q == q ==> a.setter.SetMark?
    ensures x.SetMark? || x.SetWin?
  {}

  lemma {:induction false} GentleEvents(l: Loop, envs: seq<Env>, pks: seq<seq<P.Event>>, q: nat)
    requires |pks| == |envs| && GentleSince(l, LoopRun(l, envs), q)
    requires forall n :: 0 <= n < |pks| ==> PacketsOnly(pks[n])
    ensures Undisturbed(Events(l, envs, pks, q))
  {
    if envs != [] {
      var n := |envs| - 1;
      var m, k := LoopRun(l, envs[..n]), LoopRun(l, envs);
      DoneGrows(l, envs[..n]);
      if !Done(m) { TurnDone(m, envs[n]); }
      assert forall i :: 0 <= i < |m.done| ==> k.done[i] == m.done[i];
      GentleEvents(l, envs[..n], pks[..n], q);
      var xs := TurnCalls(m, envs[n], q);
      forall e | e in Calls(xs) ensures Gentle(e) {
        var i :| 0 <= i < |xs| && Calls(xs)[i] == e;
        if m.todo[0].time < NextSample(m.sys.tcp) { assert k.done[|m.done|] == m.todo[0]; }
        GentleTurn(m, envs[n], q, xs[i]);
      }
    }
  }

  predicate PacketsOnly(pk: seq<P.Event>) { forall e :: e in pk ==> !e.Set? }

  /** One turn that makes the call `x` on `q`, after the packet thread has come to `t`. */
  lemma CallTurn(l: Loop, env: Env, q: nat, x: DirectSetter, t: P.Pipe)
    requires Dispatches(l, Action.Set(q, x)) && Live(l.sys, q) && !LoopStep(l, env).sys.crashed
    requires Interfere(l.sys, env).slots[q].w == t.w && (x.SetReorder? ==> !t.pc.Releasing?)
    ensures var m := LoopStep(l, env); Live(m.sys, q) && m.sys.slots[q].w == P.Next(t, P.Set(x)).w
  {
    TurnIsCalls(l, env, q);
    ApplyFew(t.w, x, x);
  }

  /** A reordering handover of the whole system. The loop dispatches the drop call of a HO line and later
      its reorder call; `envs` and the packet steps `pks` come between them, `envs'` and `pks'` after, in
      which anything may be dispatched that does not touch the drop, reorder and dedup stages of the
      queue. Then its packets leave as the line says, and its worker is where the packets left it. */
  lemma LoopHandover(ln: Line, l: Loop, on: Env, pk: seq<P.Event>, envs: seq<Env>, pks: seq<seq<P.Event>>,
                     arm: Env, pk': seq<P.Event>, envs': seq<Env>, pks': seq<seq<P.Event>>, pipe: P.Pipe)
    returns (d: Loop, t: P.Pipe, now: seq<u32>, dr: seq<u32>, through: seq<u32>, first: seq<u32>, rest: seq<u32>)
    requires ln.Ho? && ln.count > 0 && PacketsOnly(pk') && |pks| == |envs| && |pks'| == |envs'|
    requires (forall n :: 0 <= n < |pks| ==> PacketsOnly(pks[n])) && (forall n :: 0 <= n < |pks'| ==> PacketsOnly(pks'[n]))
    requires var q, s := ln.q, P.Run(pipe, pk);
             && Dispatches(l, Action.Set(q, DropCall(ln).setter)) && Live(l.sys, q) && Interfere(l.sys, on).slots[q].w == s.w
             && !s.w.dedup && !s.w.reorder.on && !s.pc.Releasing?
             && var b, p := LoopStep(l, on), P.Next(s, DropCall(ln));
                Tells(b, envs, pks, q, p) && KeptOpen(b, LoopRun(b, envs), q) && GentleSince(b, LoopRun(b, envs), q)
    requires var q, b, p := ln.q, LoopStep(l, on), P.Next(P.Run(pipe, pk), DropCall(ln));
             var m, r := LoopRun(b, envs), P.Run(P.Run(p, Events(b, envs, pks, q)), pk');
             && Dispatches(m, Action.Set(q, ReorderCall(ln).setter)) && (Live(m.sys, q) ==> Interfere(m.sys, arm).slots[q].w == r.w)
             && var c, u := LoopStep(m, arm), P.Next(r, ReorderCall(ln));
                && Tells(c, envs', pks', q, u) && KeptOpen(c, LoopRun(c, envs'), q) && GentleSince(c, LoopRun(c, envs'), q)
                && !LoopRun(c, envs').sys.crashed && P.Run(u, Events(c, envs', pks', q)).pc.Idle?
    ensures d == LoopRun(l, [on] + envs + [arm] + envs') && Live(d.sys, ln.q) && d.sys.slots[ln.q].w == t.w
    ensures var s := P.Run(pipe, pk);
            && Cut(ln.count + 10, Entering(s.pc) + now, dr, through) && Survived(s.pc) + through == first + rest
            && Went(BookOf(s), BookOf(t), Count(ln), Offset(ln), now, dr, first, rest)
  {
    var q, s, b := ln.q, P.Run(pipe, pk), LoopStep(l, on);
    var p, m := P.Next(s, DropCall(ln)), LoopRun(b, envs);
    var e, c := Events(b, envs, pks, q), LoopStep(m, arm);
    d := LoopRun(c, envs');
    LoopRunEnds(l, on, envs, arm);
    LoopRunConcat(l, [on] + envs + [arm], envs');
    NotCrashedBefore(c, envs');
    NotCrashedBefore(b, envs);
    CallTurn(l, on, q, DropCall(ln).setter, s);
    LoopIsPipe(b, envs, pks, q, p);
    GentleEvents(b, envs, pks, q);
    RunConcat(p, e, pk');
    var r := P.Run(p, e + pk');
    now, dr, through, first, rest, t := HandoverParts(ln, s, p, e + pk', r, c, envs', pks', q);
    CallTurn(m, arm, q, ReorderCall(ln).setter, r);
    LoopIsPipe(c, envs', pks', q, P.Next(r, ReorderCall(ln)));
  }

  lemma HandoverParts(ln: Line, s: P.Pipe, p: P.Pipe, b: seq<P.Event>, r: P.Pipe, c: Loop, envs: seq<Env>, pks: seq<seq<P.Event>>, q: nat)
    returns (now: seq<u32>, dr: seq<u32>, through: seq<u32>, first: seq<u32>, rest: seq<u32>, t: P.Pipe)
    requires ln.Ho? && ln.count > 0 && !s.w.dedup && !s.w.reorder.on && !s.pc.Releasing? && Undisturbed(b)
    requires p == P.Next(s, DropCall(ln)) && r == P.Run(p, b)
    requires |pks| == |envs| && GentleSince(c, LoopRun(c, envs), q) && (forall n :: 0 <= n < |pks| ==> PacketsOnly(pks[n]))
    requires P.Run(P.Next(r, ReorderCall(ln)), Events(c, envs, pks, q)).pc.Idle?
    ensures t == P.Run(P.Next(r, ReorderCall(ln)), Events(c, envs, pks, q)) && !r.pc.Releasing?
    ensures Cut(ln.count + 10, Entering(s.pc) + now, dr, through) && Survived(s.pc) + through == first + rest
    ensures Went(BookOf(s), BookOf(t), Count(ln), Offset(ln), now, dr, first, rest)
  {
    var es := Events(c, envs, pks, q);
    t := P.Run(P.Next(r, ReorderCall(ln)), es);
    GentleEvents(c, envs, pks, q);
    var n, x, y, z := FlowRun(p, b, ln.count + 10);
    now, dr, through, first, rest := StreamEffect(p, b, es, ln.count + 10, ToU16(ln.count), ToU16(ln.offset));
  }

  /** The calls of a HO line are dispatched in consecutive turns: the loop that has dispatched the drop
      call dispatches the reorder call next. */
  lemma CallsTogether(ls: seq<Line>, evs: seq<Ev>, l: Loop, env: Env, i: int, x: int)
    requires 0 <= i < |ls| && ls[i].Ho? && ls[i].count > 0 && SortedTrace(Compile(ls), evs)
    requires 0 <= x < |evs| && At(evs, l, x) && evs[x] == EvAt(Compile(ls), i, 3)
    requires Dispatches(l, Action.Set(ls[i].q, DropCall(ls[i]).setter)) && !LoopStep(l, env).sys.crashed
    ensures Dispatches(LoopStep(l, env), Action.Set(ls[i].q, ReorderCall(ls[i]).setter))
  {
    var cs := Compile(ls);
    assert cs[i] == CompileHo(ls[i]);
    var y := Placed(cs, evs, i, 4);
    Neighbours(cs, evs, i, 3, y);
    PlacedOnce(cs, evs, i, 3, x, y - 1);
    InterfereKeeps(l.sys, env);
    assert l.todo[1] == evs[x + 1];
  }

  // ------------------------------------------------------------------- bytes

  function Sum(xs: seq<u64>): nat {
    if xs == [] then 0 else Sum(xs[..|xs| - 1]) + xs[|xs| - 1]
  }

  lemma SumOne(xs: seq<u64>, x: u64)
    ensures Sum(xs + [x]) == Sum(xs) + x
  {
    assert (xs + [x])[..|xs|] == xs;
  }

  lemma {:induction false} TakenConcat(s: P.Pipe, a: seq<P.Event>, b: seq<P.Event>)
    ensures A.Taken(s, a + b, true) == A.Taken(s, a, true) + A.Taken(P.Run(s, a), b, true)
  {
    if b == [] {
      assert a + b == a;
    } else {
      var n := |b| - 1;
      assert (a + b)[..|a| + n] == a + b[..n];
      TakenConcat(s, a, b[..n]);
      RunConcat(s, a, b[..n]);
    }
  }

  /** Only samples consume the counter. */
  predicate Consumes(e: P.Event) { A.Empties(e, true) }

  lemma {:induction false} TakenNothing(s: P.Pipe, es: seq<P.Event>)
    requires forall e :: e in es ==> !Consumes(e)
    ensures A.Taken(s, es, true) == 0
  {
    if es != [] {
      TakenNothing(s, es[..|es| - 1]);
      assert es[|es| - 1] in es;
    }
  }

  lemma ActionsConsumeNothing(s: Sys, a: Action, q: nat)
    requires Live(s, q)
    ensures forall e :: e in Calls(ActionCalls(s, a, q)) ==> !Consumes(e)
  {}

  lemma SampleConsumes(s: Sys, q: nat, t: P.Pipe)
    requires Linked(s, q)
    ensures A.Taken(t, Calls(SampleCalls(s, q)), true) == t.w.win.rcvd
  {
    var es := Calls(SampleCalls(s, q));
    assert |es| == 1 && es[..0] == [];
    assert Consumes(es[0]);
  }

  /** What one turn takes out of the counter is what its sample reads, if it samples. */
  lemma TurnConsumes(m: Loop, env: Env, pk: seq<P.Event>, q: nat, t: P.Pipe)
    requires !Done(m) && Linked(m.sys, q) && PacketsOnly(pk) && Interfere(m.sys, env).slots[q].w == P.Run(t, pk).w
    ensures A.Taken(t, pk + Calls(TurnCalls(m, env, q)), true)
            == if m.todo[0].time < NextSample(m.sys.tcp) then 0 else PacketsSeen(m.sys, env, q).rcvd
  {
    var s := Interfere(m.sys, env);
    InterfereKeeps(m.sys, env);
    TakenConcat(t, pk, Calls(TurnCalls(m, env, q)));
    TakenNothing(t, pk);
    if m.todo[0].time < NextSample(m.sys.tcp) {
      ActionsConsumeNothing(s, m.todo[0].action, q);
      TakenNothing(P.Run(t, pk), Calls(ActionCalls(s, m.todo[0].action, q)));
    } else {
      SampleConsumes(s, q, P.Run(t, pk));
    }
  }

  /** Over any run of the loop linked to `q`, the samples consume exactly the counters they read. */
  lemma {:induction false} SamplesConsume(l: Loop, envs: seq<Env>, pks: seq<seq<P.Event>>, q: nat, pipe: P.Pipe)
    requires Linked(l.sys, q) && Tells(l, envs, pks, q, pipe)
    requires SparedBy(l, LoopRun(l, envs), q) && !LoopRun(l, envs).sys.crashed
    ensures A.Taken(pipe, Events(l, envs, pks, q), true) == Sum(Counters(l, envs, q))
  {
    if envs != [] {
      var n := |envs| - 1;
      var m, k, es := LoopRun(l, envs[..n]), LoopRun(l, envs), Events(l, envs[..n], pks[..n], q);
      DoneGrows(l, envs[..n]);
      if !Done(m) { TurnDone(m, envs[n]); }
      SparedEarlier(l, m, k, q);
      TellsBefore(l, envs, pks, q, pipe);
      SamplesConsume(l, envs[..n], pks[..n], q, pipe);
      LoopIsControl(l, envs[..n], q);
      assert TrafficIs(l, envs, pks, q, pipe, n);
      TakenConcat(pipe, es, pks[n] + Calls(TurnCalls(m, envs[n], q)));
      if !Done(m) { TurnConsumes(m, envs[n], pks[n], q, P.Run(pipe, es)); }
      CountersOne(l, envs, q, m);
    }
  }

  lemma CountersOne(l: Loop, envs: seq<Env>, q: nat, m: Loop)
    requires envs != [] && m == LoopRun(l, envs[..|envs| - 1]) && Live(m.sys, q)
    ensures var n := |envs| - 1;
            Sum(Counters(l, envs, q)) == Sum(Counters(l, envs[..n], q))
            + if Done(m) || m.todo[0].time < NextSample(m.sys.tcp) then 0 else PacketsSeen(m.sys, envs[n], q).rcvd
  {
    var n, xs := |envs| - 1, Counters(l, envs[..|envs| - 1], q);
    assert xs + [] == xs;
    SumOne(xs, PacketsSeen(m.sys, envs[n], q).rcvd);
  }

  /** Byte accounting of the whole system: while rewriting stays on, over any run of the dispatch loop, the
      counters its samples read, what actions threw away and what the worker still counts add up to the
      true number of bytes acknowledged, across wrap-around and whatever ACKs earlier stages removed. */
  lemma LoopBytes(l: Loop, envs: seq<Env>, pks: seq<seq<P.Event>>, q: nat, pipe: P.Pipe, start: nat, pos: seq<nat>)
    requires Linked(l.sys, q) && l.sys.slots[q].w == pipe.w && Tells(l, envs, pks, q, pipe)
    requires SparedBy(l, LoopRun(l, envs), q) && !LoopRun(l, envs).sys.crashed
    requires pipe.w.win.on && pipe.w.win.rcvd == 0 && start % TWO32 == pipe.w.win.lastAck
    requires forall e :: e in Events(l, envs, pks, q) ==> A.KeepsRewriting(e)
    requires var acks := A.Reached(pipe, Events(l, envs, pks, q));
             |pos| == |acks| && A.Climbs(start, pos) && forall i :: 0 <= i < |pos| ==> pos[i] % TWO32 == acks[i]
    requires pos != [] ==> pos[|pos| - 1] - start < TWO64
    ensures var m, es := LoopRun(l, envs), Events(l, envs, pks, q);
            && Live(m.sys, q)
            && Sum(Counters(l, envs, q)) + A.Taken(pipe, es, false) + m.sys.slots[q].w.win.rcvd
               == (if pos == [] then start else pos[|pos| - 1]) - start
  {
    SamplesConsume(l, envs, pks, q, pipe);
    LoopIsPipe(l, envs, pks, q, pipe);
    A.BytesTelescope(pipe, Events(l, envs, pks, q), start, pos);
  }
}
