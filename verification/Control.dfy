/** The controller inside the dispatch loop: seen from one queue, a run of the loop is a run of the
    controller, so what holds of the controller over all its runs holds of the scheduler's. */
module Control {
  import opened Machine
  import opened Worker
  import P = Pipeline
  import opened Action
  import opened Dispatch
  import opened Lifecycle
  import opened Window

  // ---------------------------------------------------- the packet threads

  /** Whatever packets come, what they do to a worker between two actions is a disturbance. */
  lemma {:induction false} PacketsAreTraffic(s: P.Pipe, es: seq<P.Event>)
    requires forall e :: e in es ==> !e.Set?
    ensures exists t :: P.Run(s, es).w == Disturb(s.w, t)
  {
    PacketsKeepControl(s, es);
    DisturbIsTraffic(s.w, P.Run(s, es).w);
  }

  lemma {:induction false} PacketsKeepControl(s: P.Pipe, es: seq<P.Event>)
    requires forall e :: e in es ==> !e.Set?
    ensures SameControl(s.w, P.Run(s, es).w)
  {
    if es != [] {
      var n := |es| - 1;
      PacketsKeepControl(s, es[..n]);
      assert es[n] in es;
      P.PacketFrame(P.Run(s, es[..n]));
    }
  }

  // ------------------------------------------------- one turn of the loop

  /** The loop moves the sampler's time on, which the controller never reads. */
  function Refire(c: Ctl, fire: int): Ctl { c.(tcp := c.tcp.(fire := fire)) }

  /** What a turn of the loop is for the controller of queue `q`: packets, then an action or a sample. */
  function TurnEvents(m: Loop, env: Env, q: nat): seq<CtlEvent> {
    if Done(m) || !Live(m.sys, q) then [] else
    [PacketsSeen(m.sys, env, q)]
    + if m.todo[0].time < NextSample(m.sys.tcp) then
        (match EventOf(m.todo[0].action, q) case Some(e) => [e] case None => [])
      else [Sample]
  }

  function PacketsSeen(s: Sys, env: Env, q: nat): CtlEvent
    requires Live(s, q)
  {
    var v := s.slots[q].w.win;
    if q in env then Packets(env[q].rcvd, env[q].lastAck) else Packets(v.rcvd, v.lastAck)
  }

  function ControlEvents(l: Loop, envs: seq<Env>, q: nat): seq<CtlEvent> {
    if envs == [] then [] else
    var n := |envs| - 1;
    ControlEvents(l, envs[..n], q) + TurnEvents(LoopRun(l, envs[..n]), envs[n], q)
  }

  /** The sampler is linked to the live worker of `q`. */
  predicate Linked(s: Sys, q: nat) { Live(s, q) && s.tcp.worker == Some(q) }

  /** An action that neither opens nor closes `q`, nor steers the controller through another queue. */
  predicate Spares(a: Action, q: nat) { !SteersOther(a, q) && !InitOf(a, q) && !TeardownOf(a, q) }

  predicate SparedBy(l: Loop, m: Loop, q: nat) {
    forall i :: |l.done| <= i < |m.done| ==> Spares(m.done[i].action, q)
  }

  lemma RefireNext(c: Ctl, fire: int, e: CtlEvent)
    ensures CtlNext(Refire(c, fire), e) == Refire(CtlNext(c, e), if e.Attaching? then e.args.fire else fire)
  {
    match e
    case Solve(_) =>
    case Clamp(_) =>
    case Bursting(_) =>
    case Adapting(_) =>
    case Attaching(_, _) =>
    case Sample =>
    case Packets(_, _) =>
  }

  lemma CtlRunOne(c: Ctl, es: seq<CtlEvent>, e: CtlEvent)
    ensures CtlRun(c, es + [e]) == CtlNext(CtlRun(c, es), e)
  {
    assert (es + [e])[..|es|] == es;
  }

  lemma EventTurnIsControl(m: Loop, s: Sys, q: nat)
    requires !Done(m) && Linked(s, q) && Spares(m.todo[0].action, q) && !Perform(s, m.todo[0].action).crashed
    ensures var u := Perform(s, m.todo[0].action);
            && Linked(u, q)
            && CtlOf(u, q) == match EventOf(m.todo[0].action, q) case Some(e) => CtlNext(CtlOf(s, q), e) case None => CtlOf(s, q)
  {
    PerformIsControl(s, m.todo[0].action, q);
  }

  lemma SampleTurnIsControl(s: Sys, q: nat, fire: int)
    requires Linked(s, q) && !Tick(s.(tcp := s.tcp.(fire := fire))).crashed
    ensures var u := Tick(s.(tcp := s.tcp.(fire := fire)));
            Linked(u, q) && CtlOf(u, q) == Refire(CtlNext(CtlOf(s, q), Sample), fire)
  {
    var r := s.(tcp := s.tcp.(fire := fire));
    TickIsSample(r, q);
    TickKeepsTcp(r);
    RefireNext(CtlOf(s, q), fire, Sample);
    assert CtlOf(r, q) == Refire(CtlOf(s, q), fire);
  }

  /** One turn is its events, up to the sampler's time. */
  lemma TurnIsControl(m: Loop, env: Env, q: nat)
    requires !Done(m) && Linked(m.sys, q) && !LoopStep(m, env).sys.crashed
    requires m.todo[0].time < NextSample(m.sys.tcp) ==> Spares(m.todo[0].action, q)
    ensures var n := LoopStep(m, env);
            Linked(n.sys, q) && CtlOf(n.sys, q) == Refire(CtlRun(CtlOf(m.sys, q), TurnEvents(m, env, q)), n.sys.tcp.fire)
  {
    var s, c, p := Interfere(m.sys, env), CtlOf(m.sys, q), PacketsSeen(m.sys, env, q);
    InterfereKeeps(m.sys, env);
    InterfereIsPackets(m.sys, env, q);
    var d := CtlNext(c, p);
    assert CtlRun(c, [p]) == d by { CtlRunOne(c, [], p); assert [] + [p] == [p]; }
    assert Linked(s, q) && CtlOf(s, q) == d;
    if m.todo[0].time < NextSample(m.sys.tcp) {
      EventTurnIsControl(m, s, q);
      match EventOf(m.todo[0].action, q)
      case Some(e) => CtlRunOne(c, [p], e);
      case None => assert [p] + [] == [p];
    } else {
      SampleTurnIsControl(s, q, NextSample(s.tcp));
      CtlRunOne(c, [p], Sample);
    }
  }

  // ------------------------------------------------------ runs of the loop

  lemma {:induction false} RefireRun(c: Ctl, fire: int, es: seq<CtlEvent>)
    ensures exists f :: CtlRun(Refire(c, fire), es) == Refire(CtlRun(c, es), f)
  {
    if es == [] {
      assert CtlRun(Refire(c, fire), es) == Refire(CtlRun(c, es), fire);
    } else {
      var n := |es| - 1;
      RefireRun(c, fire, es[..n]);
      var f :| CtlRun(Refire(c, fire), es[..n]) == Refire(CtlRun(c, es[..n]), f);
      RefireNext(CtlRun(c, es[..n]), f, es[n]);
      assert CtlRun(Refire(c, fire), es) == Refire(CtlRun(c, es), if es[n].Attaching? then es[n].args.fire else f);
    }
  }

  lemma {:induction false} CtlRunConcat(c: Ctl, a: seq<CtlEvent>, b: seq<CtlEvent>)
    ensures CtlRun(c, a + b) == CtlRun(CtlRun(c, a), b)
  {
    if b == [] {
      assert a + b == a;
    } else {
      var n := |b| - 1;
      CtlRunConcat(c, a, b[..n]);
      assert (a + b)[..|a| + n] == a + b[..n];
    }
  }

  lemma RefireThen(c: Ctl, d: Ctl, e: Ctl, f: int, g: int, a: seq<CtlEvent>, b: seq<CtlEvent>)
    requires d == Refire(CtlRun(c, a), f) && e == Refire(CtlRun(d, b), g)
    ensures e == Refire(CtlRun(c, a + b), g)
  {
    RefireRun(CtlRun(c, a), f, b);
    CtlRunConcat(c, a, b);
  }

  lemma TurnDone(m: Loop, env: Env)
    requires !Done(m)
    ensures var n := LoopStep(m, env);
            n.done == if m.todo[0].time < NextSample(m.sys.tcp) then m.done + [m.todo[0]] else m.done
  {
    InterfereKeeps(m.sys, env);
  }

  lemma SparedEarlier(l: Loop, m: Loop, n: Loop, q: nat)
    requires SparedBy(l, n, q) && (n.done == m.done || (m.todo != [] && n.done == m.done + [m.todo[0]]))
    ensures SparedBy(l, m, q)
    ensures n.done != m.done && |l.done| <= |m.done| ==> Spares(m.todo[0].action, q)
  {
    assert forall i :: 0 <= i < |m.done| ==> n.done[i] == m.done[i];
    if n.done != m.done {
      assert n.done[|m.done|] == m.todo[0];
    }
  }

  lemma {:induction false} DoneGrows(l: Loop, envs: seq<Env>)
    ensures l.done <= LoopRun(l, envs).done
  {
    if envs != [] {
      DoneGrows(l, envs[..|envs| - 1]);
      var m := LoopRun(l, envs[..|envs| - 1]);
      if !Done(m) { TurnDone(m, envs[|envs| - 1]); }
    }
  }

  /** Over any run of the loop in which no action opens or closes `q` or steers the controller through
      another queue, the controller of `q` has done exactly the events read off the turns. */
  lemma {:induction false} LoopIsControl(l: Loop, envs: seq<Env>, q: nat)
    requires Linked(l.sys, q) && SparedBy(l, LoopRun(l, envs), q) && !LoopRun(l, envs).sys.crashed
    ensures var m := LoopRun(l, envs);
            && Linked(m.sys, q)
            && CtlOf(m.sys, q) == Refire(CtlRun(CtlOf(l.sys, q), ControlEvents(l, envs, q)), m.sys.tcp.fire)
  {
    if envs != [] {
      var n := |envs| - 1;
      var m, k := LoopRun(l, envs[..n]), LoopRun(l, envs);
      if Done(m) {
        LoopIsControl(l, envs[..n], q);
        assert ControlEvents(l, envs[..n], q) + [] == ControlEvents(l, envs[..n], q);
      } else {
        DoneGrows(l, envs[..n]);
        TurnDone(m, envs[n]);
        SparedEarlier(l, m, k, q);
        LoopIsControl(l, envs[..n], q);
        TurnIsControl(m, envs[n], q);
        RefireThen(CtlOf(l.sys, q), CtlOf(m.sys, q), CtlOf(k.sys, q), m.sys.tcp.fire, k.sys.tcp.fire,
                   ControlEvents(l, envs[..n], q), TurnEvents(m, envs[n], q));
      }
    }
  }

  /** The controller events of a run are packets, samples and the actions dispatched. */
  lemma {:induction false} ControlSources(l: Loop, envs: seq<Env>, q: nat, e: CtlEvent) returns (i: nat)
    requires e in ControlEvents(l, envs, q) && !e.Packets? && !e.Sample?
    ensures var m := LoopRun(l, envs); |l.done| <= i < |m.done| && EventOf(m.done[i].action, q) == Some(e)
  {
    var n := |envs| - 1;
    var m := LoopRun(l, envs[..n]);
    DoneGrows(l, envs[..n]);
    if !Done(m) { TurnDone(m, envs[n]); }
    if e in TurnEvents(m, envs[n], q) {
      TurnSource(m, envs[n], q, e);
      i := |m.done|;
    } else {
      i := ControlSources(l, envs[..n], q, e);
    }
  }

  lemma TurnSource(m: Loop, env: Env, q: nat, e: CtlEvent)
    requires e in TurnEvents(m, env, q) && !e.Packets? && !e.Sample?
    ensures !Done(m) && m.todo[0].time < NextSample(m.sys.tcp) && EventOf(m.todo[0].action, q) == Some(e)
  {}

  /** No action on the controller of `q` was dispatched. */
  predicate Quietly(l: Loop, m: Loop, q: nat) {
    forall i :: |l.done| <= i < |m.done| ==> Spares(m.done[i].action, q) && EventOf(m.done[i].action, q) == None
  }

  lemma QuietlySamples(l: Loop, envs: seq<Env>, q: nat)
    requires Quietly(l, LoopRun(l, envs), q)
    ensures SparedBy(l, LoopRun(l, envs), q) && SamplesOnly(ControlEvents(l, envs, q))
  {
    forall e | e in ControlEvents(l, envs, q) ensures e.Sample? || e.Packets? {
      if !e.Sample? && !e.Packets? {
        var i := ControlSources(l, envs, q, e);
      }
    }
  }

  // ------------------------------------------------- what the sampler sees

  /** The byte counters of `q` that the samples of a run read. */
  function Counters(l: Loop, envs: seq<Env>, q: nat): seq<u64> {
    if envs == [] then [] else
    var n := |envs| - 1;
    var m := LoopRun(l, envs[..n]);
    Counters(l, envs[..n], q)
    + if Done(m) || !Live(m.sys, q) || m.todo[0].time < NextSample(m.sys.tcp) then []
      else [PacketsSeen(m.sys, envs[n], q).rcvd]
  }

  function Scaled(xs: seq<u64>): (r: seq<nat>)
    ensures |r| == |xs|
  {
    seq(|xs|, i requires 0 <= i < |xs| => xs[i] / 1024)
  }

  function Estimated(xs: seq<u64>, rtt: int, interval: int): (r: seq<int>)
    ensures |r| == |xs|
  {
    seq(|xs|, i requires 0 <= i < |xs| => BurstEstimate(xs[i], rtt, interval))
  }

  lemma SampledOne(c: Ctl, es: seq<CtlEvent>, p: CtlEvent)
    requires p.Packets?
    ensures ScaledSamples(c, es + [p]) == ScaledSamples(c, es) && Estimates(c, es + [p]) == Estimates(c, es)
    ensures ScaledSamples(c, es + [p, Sample]) == ScaledSamples(c, es) + [p.rcvd / 1024]
    ensures var tcp := CtlRun(c, es).tcp;
            Estimates(c, es + [p, Sample]) == Estimates(c, es) + [BurstEstimate(p.rcvd, tcp.links.Get(tcp.mark).rtt, tcp.interval)]
  {
    var a := es + [p];
    CtlRunOne(c, es, p);
    assert a[..|es|] == es;
    assert (es + [p, Sample])[..|a|] == a;
  }

  lemma ScaledOne(xs: seq<u64>, x: u64)
    ensures Scaled(xs + [x]) == Scaled(xs) + [x / 1024]
  {}

  lemma EstimatedOne(xs: seq<u64>, x: u64, rtt: int, interval: int)
    ensures Estimated(xs + [x], rtt, interval) == Estimated(xs, rtt, interval) + [BurstEstimate(x, rtt, interval)]
  {}

  /** What a quiet turn adds to the counters read and to the controller's events. */
  lemma CountersTurn(l: Loop, envs: seq<Env>, q: nat) returns (p: CtlEvent)
    requires envs != [] && SamplesOnly(ControlEvents(l, envs, q))
    ensures var xs, es := Counters(l, envs[..|envs| - 1], q), ControlEvents(l, envs[..|envs| - 1], q);
            && p.Packets? && SamplesOnly(es)
            && (|| (Counters(l, envs, q) == xs && ControlEvents(l, envs, q) == es)
                || (Counters(l, envs, q) == xs && ControlEvents(l, envs, q) == es + [p])
                || (Counters(l, envs, q) == xs + [p.rcvd] && ControlEvents(l, envs, q) == es + [p, Sample]))
  {
    var n := |envs| - 1;
    var m, es, xs := LoopRun(l, envs[..n]), ControlEvents(l, envs[..n], q), Counters(l, envs[..n], q);
    assert forall e :: e in es ==> e in ControlEvents(l, envs, q);
    p := Packets(0, 0);
    assert xs + [] == xs;
    if Done(m) || !Live(m.sys, q) {
      assert es + [] == es;
    } else {
      p := PacketsSeen(m.sys, envs[n], q);
      QuietTurn(l, m, envs, q);
    }
  }

  /** The scaled samples of the controller are those of the counters read. */
  lemma {:induction false} CountersSampled(l: Loop, envs: seq<Env>, q: nat, c: Ctl)
    requires SamplesOnly(ControlEvents(l, envs, q))
    ensures ScaledSamples(c, ControlEvents(l, envs, q)) == Scaled(Counters(l, envs, q))
  {
    if envs != [] {
      var before := envs[..|envs| - 1];
      var p := CountersTurn(l, envs, q);
      CountersSampled(l, before, q, c);
      SampledOne(c, ControlEvents(l, before, q), p);
      ScaledOne(Counters(l, before, q), p.rcvd);
    }
  }

  lemma ActsInTurn(m: Loop, env: Env, q: nat)
    requires !Done(m) && Live(m.sys, q) && m.todo[0].time < NextSample(m.sys.tcp)
    ensures var e := EventOf(m.todo[0].action, q);
            e.Some? ==> e.value in TurnEvents(m, env, q) && !e.value.Sample? && !e.value.Packets?
  {}

  lemma QuietAction(m: Loop, env: Env, q: nat)
    requires !Done(m) && Live(m.sys, q) && SamplesOnly(TurnEvents(m, env, q)) && m.todo[0].time < NextSample(m.sys.tcp)
    ensures EventOf(m.todo[0].action, q) == None
  {
    ActsInTurn(m, env, q);
  }

  /** A turn without an action on the controller is packets, or packets and a sample. */
  lemma QuietTurn(l: Loop, m: Loop, envs: seq<Env>, q: nat)
    requires envs != [] && m == LoopRun(l, envs[..|envs| - 1]) && !Done(m) && Live(m.sys, q)
    requires SamplesOnly(ControlEvents(l, envs, q))
    ensures var p, es := PacketsSeen(m.sys, envs[|envs| - 1], q), ControlEvents(l, envs[..|envs| - 1], q);
            ControlEvents(l, envs, q) == if m.todo[0].time < NextSample(m.sys.tcp) then es + [p] else es + [p, Sample]
  {
    var env, es := envs[|envs| - 1], ControlEvents(l, envs[..|envs| - 1], q);
    var p, now := PacketsSeen(m.sys, env, q), TurnEvents(m, env, q);
    assert forall e :: e in now ==> e in es + now;
    if m.todo[0].time < NextSample(m.sys.tcp) {
      QuietAction(m, env, q);
      assert now == [p];
    } else {
      assert now == [p, Sample];
    }
  }

  /** And its estimates are those from the counters read. */
  lemma {:induction false} CountersEstimated(l: Loop, envs: seq<Env>, q: nat, c: Ctl)
    requires SamplesOnly(ControlEvents(l, envs, q))
    ensures Estimates(c, ControlEvents(l, envs, q))
            == Estimated(Counters(l, envs, q), c.tcp.links.Get(c.tcp.mark).rtt, c.tcp.interval)
  {
    if envs != [] {
      var before := envs[..|envs| - 1];
      var p := CountersTurn(l, envs, q);
      CountersEstimated(l, before, q, c);
      SamplesKeepTcp(c, ControlEvents(l, before, q));
      SampledOne(c, ControlEvents(l, before, q), p);
      EstimatedOne(Counters(l, before, q), p.rcvd, c.tcp.links.Get(c.tcp.mark).rtt, c.tcp.interval);
    }
  }

  lemma {:induction false} SamplesKeepTcp(c: Ctl, es: seq<CtlEvent>)
    requires SamplesOnly(es)
    ensures CtlRun(c, es).tcp == c.tcp && CtlRun(c, es).v.burst == c.v.burst && CtlRun(c, es).v.adapt == c.v.adapt
    ensures !c.v.burst && !c.v.adapt ==> CtlRun(c, es).v.rwnd == c.v.rwnd
  {
    if es != [] {
      SamplesKeepTcp(c, es[..|es| - 1]);
      assert es[|es| - 1] in es;
    }
  }

  // ------------------------------------------- the theorems, for the loop

  /** The bound of the adaptive window over any run of the dispatch loop: as long as no action touches
      the controller, and whatever samples, packets and actions on other queues come, if every counter
      a sample reads is between `lo` and `hi` kilobytes. */
  lemma LoopAdapts(l: Loop, envs: seq<Env>, q: nat, lo: nat, hi: nat)
    requires Linked(l.sys, q) && Quietly(l, LoopRun(l, envs), q) && !LoopRun(l, envs).sys.crashed
    requires var v := l.sys.slots[q].w.win; v.adapt && !v.burst
    requires var t, p := l.sys.tcp.threshold, l.sys.tcp.pace;
             t > 0 && 0 <= p <= 400 && Suits(t, p) && hi * (100 + p) / t < TWO16
    requires forall x :: x in Counters(l, envs, q) ==> lo <= x / 1024 <= hi
    ensures Live(LoopRun(l, envs).sys, q)
    ensures var w, w' := l.sys.slots[q].w.win.rwnd, LoopRun(l, envs).sys.slots[q].w.win.rwnd;
            Min(w, lo) <= w' <= Max(w, hi * (100 + l.sys.tcp.pace) / l.sys.tcp.threshold)
  {
    var c, es := CtlOf(l.sys, q), ControlEvents(l, envs, q);
    QuietlySamples(l, envs, q);
    assert forall cw :: cw in ScaledSamples(c, es) ==> lo <= cw <= hi by {
      CountersSampled(l, envs, q, c);
      ScaledWithin(Counters(l, envs, q), lo, hi);
    }
    AdaptingBounded(c, es, lo, hi);
    WindowFollows(l, envs, q);
  }

  lemma WindowFollows(l: Loop, envs: seq<Env>, q: nat)
    requires Linked(l.sys, q) && SparedBy(l, LoopRun(l, envs), q) && !LoopRun(l, envs).sys.crashed
    ensures var m := LoopRun(l, envs);
            Live(m.sys, q) && m.sys.slots[q].w.win == CtlRun(CtlOf(l.sys, q), ControlEvents(l, envs, q)).v
  {
    LoopIsControl(l, envs, q);
  }

  /** And the window follows the traffic: with every counter above the threshold share of the window it
      meets it rises by at least one with every sample, and with every counter below 70 percent it falls. */
  lemma LoopMoves(l: Loop, envs: seq<Env>, q: nat)
    requires Linked(l.sys, q) && Quietly(l, LoopRun(l, envs), q) && !LoopRun(l, envs).sys.crashed
    requires var v := l.sys.slots[q].w.win; v.adapt && !v.burst && 0 < l.sys.tcp.pace <= 400
    ensures Live(LoopRun(l, envs).sys, q)
    ensures var w, w', xs := l.sys.slots[q].w.win.rwnd, LoopRun(l, envs).sys.slots[q].w.win.rwnd, Scaled(Counters(l, envs, q));
            var t, p := l.sys.tcp.threshold, l.sys.tcp.pace;
            && (w * p >= 100 && AllAbove(w, xs, t, p) ==> w' >= w + |xs|)
            && (AllBelow(w, xs, t, p) ==> w' <= w - |xs|)
  {
    var c, es := CtlOf(l.sys, q), ControlEvents(l, envs, q);
    QuietlySamples(l, envs, q);
    LoopIsControl(l, envs, q);
    CountersSampled(l, envs, q, c);
    AdaptingMoves(c, es);
  }

  lemma ScaledWithin(xs: seq<u64>, lo: nat, hi: nat)
    requires forall x :: x in xs ==> lo <= x / 1024 <= hi
    ensures forall cw :: cw in Scaled(xs) ==> lo <= cw <= hi
  {
    forall cw | cw in Scaled(xs) ensures lo <= cw <= hi {
      var i :| 0 <= i < |xs| && Scaled(xs)[i] == cw;
      assert xs[i] in xs;
    }
  }

  /** The next turn dispatches `a`. */
  predicate Dispatches(l: Loop, a: Action) {
    !Done(l) && l.todo[0].action == a && l.todo[0].time < NextSample(l.sys.tcp)
  }

  lemma {:induction false} NotCrashedBefore(l: Loop, envs: seq<Env>)
    requires !LoopRun(l, envs).sys.crashed
    ensures !l.sys.crashed
  {
    if envs != [] { NotCrashedBefore(l, envs[..|envs| - 1]); }
  }

  /** A turn that dispatches an action on the controller. */
  lemma ActionTurn(l: Loop, env: Env, q: nat, e: CtlEvent)
    requires !Done(l) && Linked(l.sys, q) && l.todo[0].time < NextSample(l.sys.tcp)
    requires EventOf(l.todo[0].action, q) == Some(e) && !LoopStep(l, env).sys.crashed
    ensures var m := LoopStep(l, env);
            && Linked(m.sys, q)
            && CtlOf(m.sys, q) == Refire(CtlNext(CtlNext(CtlOf(l.sys, q), PacketsSeen(l.sys, env, q)), e), m.sys.tcp.fire)
  {
    var c, p := CtlOf(l.sys, q), PacketsSeen(l.sys, env, q);
    TurnIsControl(l, env, q);
    assert [] + [p] == [p];
    CtlRunOne(c, [], p);
    CtlRunOne(c, [p], e);
  }

  /** Quiet turns, after which the modes are off, keep the window and the controller's memory. */
  lemma LoopRests(l: Loop, envs: seq<Env>, q: nat)
    requires Linked(l.sys, q) && Quietly(l, LoopRun(l, envs), q) && !LoopRun(l, envs).sys.crashed
    requires var v := l.sys.slots[q].w.win; !v.burst && !v.adapt
    ensures var m := LoopRun(l, envs);
            && Linked(m.sys, q) && m.sys.tcp == l.sys.tcp.(fire := m.sys.tcp.fire)
            && m.sys.slots[q].w.win.rwnd == l.sys.slots[q].w.win.rwnd
  {
    QuietlySamples(l, envs, q);
    LoopIsControl(l, envs, q);
    SamplesKeepTcp(CtlOf(l.sys, q), ControlEvents(l, envs, q));
  }

  lemma LoopBurstsWith(l: Loop, envs: seq<Env>, q: nat, xs: seq<int>)
    requires Linked(l.sys, q) && Quietly(l, LoopRun(l, envs), q) && !LoopRun(l, envs).sys.crashed
    requires l.sys.slots[q].w.win.burst && xs == Estimates(CtlOf(l.sys, q), ControlEvents(l, envs, q))
    requires forall x :: x in xs ==> x < TWO16
    ensures var m := LoopRun(l, envs);
            && Linked(m.sys, q) && m.sys.tcp == l.sys.tcp.(fire := m.sys.tcp.fire) && m.sys.slots[q].w.win.burst
            && m.sys.slots[q].w.win.rwnd == Largest(l.sys.slots[q].w.win.rwnd, xs)
  {
    QuietlySamples(l, envs, q);
    LoopIsControl(l, envs, q);
    BurstSamples(CtlOf(l.sys, q), ControlEvents(l, envs, q));
  }

  /** `w` is `start`, or the largest window that one round trip carries at the rate of one of the
      counters. */
  ghost predicate IsLargest(w: int, start: int, cs: seq<u64>, rtt: int, interval: int) {
    && w >= start && (forall c, x :: c in cs && Carries(c, rtt, interval, x) ==> x <= w)
    && (w == start || exists c :: c in cs && Carries(c, rtt, interval, w))
  }

  /** At no counter's rate does one round trip carry a window beyond 16 bits. */
  predicate RatesFit(cs: seq<u64>, rtt: int, interval: int) {
    rtt >= 0 && interval > 0 && forall c :: c in cs ==> c * rtt < 1024 * TWO16 * interval
  }

  lemma RateFits(c: u64, rtt: nat, interval: nat)
    requires interval > 0 && c * rtt < 1024 * TWO16 * interval
    ensures c * rtt / interval < TWO64 && BurstEstimate(c, rtt, interval) < TWO16
  {
    var k := c * rtt / interval;
    FloorMeans(c * rtt, interval);
    assert k < 1024 * TWO16 by {
      if 1024 * TWO16 <= k { MulLe(1024 * TWO16, k, interval); }
    }
  }

  lemma EstimatesFit(cs: seq<u64>, rtt: int, interval: int)
    requires RatesFit(cs, rtt, interval)
    ensures forall x :: x in Estimated(cs, rtt, interval) ==> x < TWO16
  {
    forall x | x in Estimated(cs, rtt, interval) ensures x < TWO16 {
      var i :| 0 <= i < |cs| && Estimated(cs, rtt, interval)[i] == x;
      assert cs[i] in cs;
      RateFits(cs[i], rtt, interval);
    }
  }

  lemma EstimatedMember(cs: seq<u64>, rtt: int, interval: int, c: u64)
    requires c in cs
    ensures BurstEstimate(c, rtt, interval) in Estimated(cs, rtt, interval)
  {
    var i :| 0 <= i < |cs| && cs[i] == c;
    assert Estimated(cs, rtt, interval)[i] == BurstEstimate(c, rtt, interval);
  }

  lemma LargestMeans(start: int, cs: seq<u64>, rtt: int, interval: int)
    requires RatesFit(cs, rtt, interval)
    ensures IsLargest(Largest(start, Estimated(cs, rtt, interval)), start, cs, rtt, interval)
  {
    var xs := Estimated(cs, rtt, interval);
    var w := Largest(start, xs);
    LargestIs(start, xs);
    forall c, x | c in cs && Carries(c, rtt, interval, x) ensures x <= w {
      RateFits(c, rtt, interval);
      EstimateLargest(c, rtt, interval, x);
      EstimatedMember(cs, rtt, interval, c);
    }
    if w != start {
      var i :| 0 <= i < |cs| && xs[i] == w;
      assert cs[i] in cs;
      RateFits(cs[i], rtt, interval);
      EstimateLargest(cs[i], rtt, interval, w);
    }
  }

  /** The round-trip time of the current link. */
  function Rtt(tcp: Tcp): int { tcp.links.Get(tcp.mark).rtt }

  /** During a burst, over any quiet run of the loop, the window is its start or, if that is larger, the
      largest window that one round trip carries at the rate of a counter its samples read. */
  lemma LoopBursts(l: Loop, envs: seq<Env>, q: nat)
    requires Linked(l.sys, q) && Quietly(l, LoopRun(l, envs), q) && !LoopRun(l, envs).sys.crashed
    requires l.sys.slots[q].w.win.burst && RatesFit(Counters(l, envs, q), Rtt(l.sys.tcp), l.sys.tcp.interval)
    ensures var m := LoopRun(l, envs);
            && Linked(m.sys, q) && m.sys.tcp == l.sys.tcp.(fire := m.sys.tcp.fire) && m.sys.slots[q].w.win.burst
            && IsLargest(m.sys.slots[q].w.win.rwnd, l.sys.slots[q].w.win.rwnd, Counters(l, envs, q), Rtt(l.sys.tcp), l.sys.tcp.interval)
  {
    var cs, rtt, interval := Counters(l, envs, q), Rtt(l.sys.tcp), l.sys.tcp.interval;
    QuietlySamples(l, envs, q);
    CountersEstimated(l, envs, q, CtlOf(l.sys, q));
    EstimatesFit(cs, rtt, interval);
    LoopBurstsWith(l, envs, q, Estimated(cs, rtt, interval));
    LargestMeans(l.sys.slots[q].w.win.rwnd, cs, rtt, interval);
  }

  /** Switching the burst on starts from the remembered window. */
  lemma BurstOn(l: Loop, env: Env, q: nat)
    requires Dispatches(l, Burst(q, 1)) && Linked(l.sys, q) && !LoopStep(l, env).sys.crashed
    requires 0 <= Remembered(l.sys.tcp) < TWO16
    ensures var m := LoopStep(l, env); var v := Remembered(l.sys.tcp);
            && Linked(m.sys, q) && m.sys.slots[q].w.win.rwnd == v
            && m.sys.slots[q].w.win.burst && !m.sys.slots[q].w.win.adapt
            && m.sys.tcp == l.sys.tcp.(fire := m.sys.tcp.fire, interval := l.sys.tcp.burstInterval)
  {
    ActionTurn(l, env, q, Bursting(1));
  }

  /** Switching it off remembers the window, if that is larger than what was remembered. */
  lemma BurstOff(l: Loop, env: Env, q: nat)
    requires Dispatches(l, Burst(q, 0)) && Linked(l.sys, q) && !LoopStep(l, env).sys.crashed
    requires l.sys.slots[q].w.win.burst && !l.sys.slots[q].w.win.adapt && Remembered(l.sys.tcp) <= l.sys.slots[q].w.win.rwnd
    ensures var m, w := LoopStep(l, env), l.sys.slots[q].w.win.rwnd;
            && Linked(m.sys, q) && m.sys.slots[q].w.win.rwnd == w == Remembered(m.sys.tcp) && m.sys.tcp.mark == l.sys.tcp.mark
            && !m.sys.slots[q].w.win.burst && !m.sys.slots[q].w.win.adapt
  {
    ActionTurn(l, env, q, Bursting(0));
  }

  /** And adaptation starts from it. */
  lemma AdaptOn(l: Loop, env: Env, q: nat, k: int)
    requires Dispatches(l, Adapt(q, k)) && k > 0 && Linked(l.sys, q) && !LoopStep(l, env).sys.crashed
    requires 0 <= Remembered(l.sys.tcp) < TWO16
    ensures var m := LoopStep(l, env);
            && Linked(m.sys, q) && m.sys.slots[q].w.win.rwnd == Remembered(m.sys.tcp) == Remembered(l.sys.tcp)
            && m.sys.slots[q].w.win.adapt && !m.sys.slots[q].w.win.burst
            && m.sys.tcp.interval == m.sys.tcp.links.Get(m.sys.tcp.mark).rtt
  {
    ActionTurn(l, env, q, Adapting(k));
  }

  /** Burst hand-over on the dispatch loop: after the actions burst on, burst off and adapt on of `q`,
      with any samples, packets and actions on other queues between them, the window is the remembered
      window or, if that is larger, the largest that one round trip of the link carries at the rate of a
      counter read during the burst; and that is what is remembered of the link. */
  lemma LoopBurstHandover(l: Loop, on: Env, envs: seq<Env>, off: Env, envs': seq<Env>, last: Env, q: nat, k: int)
    returns (b: Loop, d: Loop)
    requires Dispatches(l, Burst(q, 1)) && Linked(l.sys, q) && k > 0 && 0 <= Remembered(l.sys.tcp) < TWO16
    requires var b := LoopStep(l, on); var m := LoopRun(b, envs);
             var r := LoopStep(m, off); var z := LoopRun(r, envs');
             && Quietly(b, m, q) && Dispatches(m, Burst(q, 0)) && Quietly(r, z, q) && Dispatches(z, Adapt(q, k))
             && !LoopStep(z, last).sys.crashed
             && RatesFit(Counters(b, envs, q), Rtt(l.sys.tcp), l.sys.tcp.burstInterval)
    ensures b == LoopStep(l, on) && d == LoopRun(l, [on] + envs + [off] + envs' + [last])
    ensures Linked(d.sys, q)
    ensures var v := d.sys.slots[q].w.win;
            && v.rwnd == Remembered(d.sys.tcp)
            && IsLargest(v.rwnd, Remembered(l.sys.tcp), Counters(b, envs, q), Rtt(l.sys.tcp), l.sys.tcp.burstInterval)
            && v.adapt && !v.burst && d.sys.tcp.interval == d.sys.tcp.links.Get(d.sys.tcp.mark).rtt
  {
    b := LoopStep(l, on);
    var m := LoopRun(b, envs);
    var r := LoopStep(m, off);
    var z := LoopRun(r, envs');
    d := LoopStep(z, last);
    LoopRunParts(l, on, envs, off, envs', last);
    NotCrashedBefore(r, envs');
    NotCrashedBefore(b, envs);
    BurstOn(l, on, q);
    LoopBursts(b, envs, q);
    BurstKeepsModes(b, envs, q);
    BurstOff(m, off, q);
    LoopRests(r, envs', q);
    AdaptOn(z, last, q, k);
  }

  lemma LoopRunSnoc(l: Loop, a: seq<Env>, env: Env)
    ensures LoopRun(l, a + [env]) == LoopStep(LoopRun(l, a), env)
  {
    assert (a + [env])[..|a|] == a;
  }

  lemma {:induction false} LoopRunConcat(l: Loop, a: seq<Env>, b: seq<Env>)
    ensures LoopRun(l, a + b) == LoopRun(LoopRun(l, a), b)
  {
    if b == [] {
      assert a + b == a;
    } else {
      var n := |b| - 1;
      LoopRunConcat(l, a, b[..n]);
      assert b == b[..n] + [b[n]] && a + b == (a + b[..n]) + [b[n]];
      LoopRunSnoc(LoopRun(l, a), b[..n], b[n]);
      LoopRunSnoc(l, a + b[..n], b[n]);
    }
  }

  lemma LoopRunOne(l: Loop, env: Env)
    ensures LoopRun(l, [env]) == LoopStep(l, env)
  {
    assert [env][..0] == [];
  }

  lemma LoopRunEnds(l: Loop, x: Env, a: seq<Env>, y: Env)
    ensures LoopRun(l, [x] + a + [y]) == LoopStep(LoopRun(LoopStep(l, x), a), y)
  {
    LoopRunConcat(l, [x] + a, [y]);
    LoopRunConcat(l, [x], a);
    LoopRunOne(l, x);
    LoopRunOne(LoopRun(l, [x] + a), y);
  }

  lemma LoopRunParts(l: Loop, x: Env, a: seq<Env>, y: Env, b: seq<Env>, z: Env)
    ensures LoopRun(l, [x] + a + [y] + b + [z]) == LoopStep(LoopRun(LoopStep(LoopRun(LoopStep(l, x), a), y), b), z)
  {
    LoopRunConcat(l, [x] + a + [y] + b, [z]);
    LoopRunConcat(l, [x] + a + [y], b);
    LoopRunEnds(l, x, a, y);
    LoopRunOne(LoopRun(l, [x] + a + [y] + b), z);
  }

  // ------------------------------------------------------------ link memory

  /** Every action dispatched leaves link `b` the current one, and is not a new SOL_INIT_SCHED. */
  predicate StaysOnLink(l: Loop, m: Loop, q: nat, b: int) {
    forall i :: |l.done| <= i < |m.done| ==>
      var a := m.done[i].action;
      Spares(a, q) && !a.Attach? && (a.Solution? ==> a.mark == b)
  }

  /** Per-link memory on the dispatch loop: leave link `a` with a window above 0, do anything on link
      `b`, come back, and the window is exactly what it was, whatever the packets do. */
  lemma LoopRoundTrip(l: Loop, leave: Env, envs: seq<Env>, back: Env, q: nat, a: int, b: int) returns (d: Loop)
    requires InRange(a) && InRange(b) && a != b && Linked(l.sys, q) && l.sys.tcp.mark == a && l.sys.slots[q].w.win.rwnd > 0
    requires var s := LoopStep(l, leave); var m := LoopRun(s, envs);
             && Dispatches(l, Solution(q, b)) && StaysOnLink(s, m, q, b) && Dispatches(m, Solution(q, a))
             && !LoopStep(m, back).sys.crashed
    ensures d == LoopRun(l, [leave] + envs + [back]) && Linked(d.sys, q)
    ensures d.sys.slots[q].w.win.rwnd == l.sys.slots[q].w.win.rwnd
  {
    var s := LoopStep(l, leave);
    var m := LoopRun(s, envs);
    d := LoopStep(m, back);
    LoopRunEnds(l, leave, envs, back);
    LinkLeft(l, leave, q, a, b);
    LinkKept(s, envs, q, a, b);
    LinkRestored(m, back, q, a);
  }

  lemma LinkKept(s: Loop, envs: seq<Env>, q: nat, a: int, b: int)
    requires InRange(a) && InRange(b) && a != b && Linked(s.sys, q) && s.sys.tcp.mark == b
    requires StaysOnLink(s, LoopRun(s, envs), q, b) && !LoopRun(s, envs).sys.crashed
    ensures var m := LoopRun(s, envs);
            Linked(m.sys, q) && m.sys.tcp.mark == b && m.sys.tcp.links.Get(a) == s.sys.tcp.links.Get(a)
  {
    StaysOnEvents(s, envs, q, b);
    LoopIsControl(s, envs, q);
    OtherLinkUntouched(CtlOf(s.sys, q), a, b, ControlEvents(s, envs, q));
  }

  lemma LinkLeft(l: Loop, env: Env, q: nat, a: int, b: int)
    requires InRange(a) && InRange(b) && a != b && Linked(l.sys, q) && l.sys.tcp.mark == a && l.sys.slots[q].w.win.rwnd > 0
    requires Dispatches(l, Solution(q, b)) && !LoopStep(l, env).sys.crashed
    ensures var s := LoopStep(l, env);
            Linked(s.sys, q) && s.sys.tcp.mark == b && s.sys.tcp.links.Get(a).rw == l.sys.slots[q].w.win.rwnd
  {
    ActionTurn(l, env, q, Solve(b));
  }

  lemma LinkRestored(m: Loop, env: Env, q: nat, a: int)
    requires InRange(a) && Linked(m.sys, q) && m.sys.tcp.mark != a && InRange(m.sys.tcp.mark)
    requires Dispatches(m, Solution(q, a)) && !LoopStep(m, env).sys.crashed && 0 <= m.sys.tcp.links.Get(a).rw < TWO16
    ensures Linked(LoopStep(m, env).sys, q) && LoopStep(m, env).sys.slots[q].w.win.rwnd == m.sys.tcp.links.Get(a).rw
  {
    ActionTurn(m, env, q, Solve(a));
  }

  lemma StaysOnEvents(s: Loop, envs: seq<Env>, q: nat, b: int)
    requires StaysOnLink(s, LoopRun(s, envs), q, b)
    ensures SparedBy(s, LoopRun(s, envs), q) && StaysOn(b, ControlEvents(s, envs, q))
  {
    forall e | e in ControlEvents(s, envs, q) ensures !e.Attaching? && (e.Solve? ==> e.mark == b) {
      if !e.Sample? && !e.Packets? {
        var i := ControlSources(s, envs, q, e);
      }
    }
  }

  lemma BurstKeepsModes(l: Loop, envs: seq<Env>, q: nat)
    requires Linked(l.sys, q) && Quietly(l, LoopRun(l, envs), q) && !LoopRun(l, envs).sys.crashed
    ensures var m := LoopRun(l, envs); Live(m.sys, q) && m.sys.slots[q].w.win.adapt == l.sys.slots[q].w.win.adapt
  {
    QuietlySamples(l, envs, q);
    LoopIsControl(l, envs, q);
    SamplesKeepTcp(CtlOf(l.sys, q), ControlEvents(l, envs, q));
  }
}
