/** The dispatch loop of `scheduler_run`: it terminates, fires every event once and in order, and
    merges the events with the sampler by time. */
module Dispatch {
  import opened Machine
  import opened Action
  import opened Scheduler

  datatype Fired = Event(e: Ev) | Sampler(time: int)

  /** The loop: the system, the events dispatched and still to come, and what fired so far. */
  datatype Loop = Loop(sys: Sys, done: seq<Ev>, todo: seq<Ev>, log: seq<Fired>)

  predicate Done(l: Loop) { l.todo == [] || l.sys.crashed }

  function NextSample(tcp: Tcp): int { tcp.fire + tcp.interval }

  /** One turn of the loop, after the packet threads have done `env`. */
  function LoopStep(l: Loop, env: Env): Loop {
    if Done(l) then l else
    var s, e := Interfere(l.sys, env), l.todo[0];
    var fire := NextSample(s.tcp);
    if e.time < fire
    then Loop(Perform(s, e.action), l.done + [e], l.todo[1..], l.log + [Event(e)])
    else Loop(Tick(s.(tcp := s.tcp.(fire := fire))), l.done, l.todo, l.log + [Sampler(fire)])
  }

  function LoopRun(l: Loop, envs: seq<Env>): Loop {
    if envs == [] then l else LoopStep(LoopRun(l, envs[..|envs| - 1]), envs[|envs| - 1])
  }

  function Begin(s: Sys, sorted: seq<Ev>): Loop { Loop(s, [], sorted, []) }

  /** The process before the first event: no queue, and a sampler that never fires. */
  predicate Pristine(tcp: Tcp) { tcp.fire == NEVER && tcp.interval == 0 && tcp.worker == None }

  function EventsOf(log: seq<Fired>): seq<Ev> {
    if log == [] then [] else
    var f := log[|log| - 1];
    EventsOf(log[..|log| - 1]) + if f.Event? then [f.e] else []
  }

  function SamplesOf(log: seq<Fired>): seq<int> {
    if log == [] then [] else
    var f := log[|log| - 1];
    SamplesOf(log[..|log| - 1]) + if f.Sampler? then [f.time] else []
  }

  lemma FiredOne(log: seq<Fired>, f: Fired)
    ensures EventsOf(log + [f]) == if f.Event? then EventsOf(log) + [f.e] else EventsOf(log)
    ensures SamplesOf(log + [f]) == if f.Sampler? then SamplesOf(log) + [f.time] else SamplesOf(log)
  {}

  // ------------------------------------------------ each event once, in order

  lemma StepKeepsEvents(l: Loop, env: Env)
    ensures var m := LoopStep(l, env);
            && m.done + m.todo == l.done + l.todo
            && (EventsOf(l.log) == l.done ==> EventsOf(m.log) == m.done)
  {
    if !Done(l) {
      var e := l.todo[0];
      assert l.todo == [e] + l.todo[1..];
      assert l.done + [e] + l.todo[1..] == l.done + ([e] + l.todo[1..]);
      FiredOne(l.log, Event(e));
      FiredOne(l.log, Sampler(NextSample(l.sys.tcp)));
    }
  }

  /** Whatever the handlers do to the period, what has fired is a prefix of the sorted table, each
      event once; and all of it when the loop ends without a crash. */
  lemma {:induction false} FiresInOrder(s: Sys, sorted: seq<Ev>, envs: seq<Env>)
    ensures var m := LoopRun(Begin(s, sorted), envs);
            && EventsOf(m.log) == m.done && m.done + m.todo == sorted
            && (Done(m) && !m.sys.crashed ==> EventsOf(m.log) == sorted)
  {
    if envs == [] {
      assert [] + sorted == sorted;
    } else {
      FiresInOrder(s, sorted, envs[..|envs| - 1]);
      StepKeepsEvents(LoopRun(Begin(s, sorted), envs[..|envs| - 1]), envs[|envs| - 1]);
      var m := LoopRun(Begin(s, sorted), envs);
      assert m.done + [] == m.done;
    }
  }

  // -------------------------------------------------------------- termination

  predicate KnownMark(m: int) { m == 1 || m == 2 }

  /** Sample intervals and round-trip times are positive, and the sampler starts in the future. */
  predicate GoodArgs(a: SchedArgs) {
    a.fire >= 0 && a.sampleInterval > 0 && a.one.rtt > 0 && a.two.rtt > 0 && KnownMark(a.mark)
  }

  predicate GoodTcp(tcp: Tcp) {
    && tcp.fire >= 0 && tcp.interval > 0 && tcp.burstInterval > 0 && KnownMark(tcp.mark)
    && tcp.links.one.rtt > 0 && tcp.links.two.rtt > 0 && tcp.worker.Some?
  }

  /** Actions that use what SOL_INIT_SCHED sets up. */
  predicate Steers(a: Action) { a.Solution? || a.Burst? || a.Adapt? }

  predicate GoodAction(a: Action) {
    && (a.Attach? ==> GoodArgs(a.args))
    && (a.Solution? ==> KnownMark(a.mark))
  }

  /** Every steering action comes after a SOL_INIT_SCHED. */
  ghost predicate AttachFirst(todo: seq<Ev>) {
    forall i :: 0 <= i < |todo| && Steers(todo[i].action) ==> exists j :: 0 <= j < i && todo[j].action.Attach?
  }

  ghost predicate GoodLoop(l: Loop) {
    && (forall e :: e in l.todo ==> e.time < NEVER && GoodAction(e.action))
    && (GoodTcp(l.sys.tcp) || (Pristine(l.sys.tcp) && AttachFirst(l.todo)))
  }

  lemma PerformKeepsGoodTcp(s: Sys, a: Action)
    requires GoodTcp(s.tcp) && GoodAction(a)
    ensures GoodTcp(Perform(s, a).tcp)
  {}

  lemma AttachMakesGoodTcp(s: Sys, a: Action)
    requires Pristine(s.tcp) && GoodAction(a) && !Steers(a)
    ensures a.Attach? && !Perform(s, a).crashed ==> GoodTcp(Perform(s, a).tcp)
    ensures !a.Attach? || Perform(s, a).crashed ==> Perform(s, a).tcp == s.tcp
  {}

  lemma InterfereKeeps(s: Sys, env: Env)
    ensures Interfere(s, env).tcp == s.tcp && Interfere(s, env).crashed == s.crashed
    ensures Interfere(s, env).slots.Keys == s.slots.Keys
  {}

  lemma TickKeepsTcp(s: Sys)
    ensures Tick(s).tcp == s.tcp && Tick(s).slots.Keys == s.slots.Keys
  {}

  lemma AttachFirstTail(todo: seq<Ev>)
    requires todo != [] && AttachFirst(todo)
    ensures !Steers(todo[0].action)
    ensures todo[0].action.Attach? || AttachFirst(todo[1..])
  {}

  lemma StepKeepsGood(l: Loop, env: Env)
    requires GoodLoop(l) && !Done(l)
    ensures LoopStep(l, env).sys.crashed || GoodLoop(LoopStep(l, env))
  {
    var s, e, m := Interfere(l.sys, env), l.todo[0], LoopStep(l, env);
    InterfereKeeps(l.sys, env);
    assert e in l.todo;
    if e.time < NextSample(s.tcp) {
      assert forall x :: x in l.todo[1..] ==> x in l.todo;
      if GoodTcp(s.tcp) {
        PerformKeepsGoodTcp(s, e.action);
      } else {
        AttachFirstTail(l.todo);
        AttachMakesGoodTcp(s, e.action);
      }
    } else {
      TickKeepsTcp(s.(tcp := s.tcp.(fire := NextSample(s.tcp))));
    }
  }

  /** Events left, then the distance from the sampler to the next event; `last` bounds all times. */
  function Rank(l: Loop, last: nat): nat {
    if Done(l) then 0 else |l.todo| * (last + 1) + Max(0, l.todo[0].time - l.sys.tcp.fire)
  }

  /** A turn either dispatches the next event or moves the sampler on by its interval. */
  lemma TurnMoves(l: Loop, env: Env)
    requires !Done(l)
    ensures var m := LoopStep(l, env);
            if l.todo[0].time < NextSample(l.sys.tcp) then m.todo == l.todo[1..]
            else m.todo == l.todo && m.sys.tcp.fire == NextSample(l.sys.tcp)
  {}

  lemma EventLowersRank(l: Loop, m: Loop, last: nat)
    requires !Done(l) && m.todo == l.todo[1..] && forall e :: e in l.todo ==> e.time <= last
    requires Done(m) || m.sys.tcp.fire >= 0
    ensures Rank(m, last) < Rank(l, last)
  {
    assert |l.todo| * (last + 1) == |m.todo| * (last + 1) + (last + 1);
    if Done(m) {
      PositiveRank(l, last);
    } else {
      assert m.todo[0] == l.todo[1] && l.todo[1] in l.todo;
    }
  }

  lemma SampleLowersRank(l: Loop, m: Loop, last: nat)
    requires !Done(l) && m.todo == l.todo && l.todo[0].time >= m.sys.tcp.fire > l.sys.tcp.fire
    ensures Rank(m, last) < Rank(l, last)
  {}

  lemma GoodFire(l: Loop)
    requires GoodLoop(l) && !Done(l)
    ensures l.sys.tcp.fire >= 0
    ensures NextSample(l.sys.tcp) > l.sys.tcp.fire || l.todo[0].time < NextSample(l.sys.tcp)
  {}

  lemma RankDrops(l: Loop, env: Env, last: nat)
    requires GoodLoop(l) && !Done(l) && forall e :: e in l.todo ==> e.time <= last
    ensures Rank(LoopStep(l, env), last) < Rank(l, last)
  {
    var m := LoopStep(l, env);
    TurnMoves(l, env);
    GoodFire(l);
    if l.todo[0].time < NextSample(l.sys.tcp) {
      StepKeepsGood(l, env);
      if !Done(m) { GoodFire(m); }
      EventLowersRank(l, m, last);
    } else {
      SampleLowersRank(l, m, last);
    }
  }

  /** The loop ends: with positive intervals and round-trip times, steering after SOL_INIT_SCHED
      and event times below 0xFFFFFFFF, it is done after `Rank` turns, whatever the packets do. */
  lemma {:induction false} LoopTerminates(l: Loop, envs: seq<Env>, last: nat)
    requires GoodLoop(l) && forall e :: e in l.todo ==> e.time <= last
    ensures var m := LoopRun(l, envs);
            && (Done(m) || GoodLoop(m)) && (forall e :: e in m.todo ==> e in l.todo)
            && Rank(m, last) <= Max(0, Rank(l, last) - |envs|)
            && (|envs| >= Rank(l, last) ==> Done(m))
  {
    if envs != [] {
      var n := |envs| - 1;
      LoopTerminates(l, envs[..n], last);
      var k, m := LoopRun(l, envs[..n]), LoopRun(l, envs);
      if !Done(k) {
        RankDrops(k, envs[n], last);
        StepKeepsGood(k, envs[n]);
        TodoShrinks(k, envs[n]);
      }
      if !Done(m) {
        PositiveRank(m, last);
      }
    } else if !Done(l) {
      PositiveRank(l, last);
    }
  }

  lemma TodoShrinks(l: Loop, env: Env)
    ensures forall e :: e in LoopStep(l, env).todo ==> e in l.todo
  {}

  lemma PositiveRank(l: Loop, last: nat)
    requires !Done(l)
    ensures Rank(l, last) > 0
  {
    assert 1 * (last + 1) <= |l.todo| * (last + 1);
  }

  /** Without a positive interval the loop is stuck: once the sampler is due it samples forever, or
      crashes, and never reaches the next event. */
  lemma {:induction false} ZeroIntervalSticks(l: Loop, envs: seq<Env>)
    requires !Done(l) && l.sys.tcp.interval == 0 && l.todo[0].time >= l.sys.tcp.fire
    ensures var m := LoopRun(l, envs);
            && m.todo == l.todo && m.done == l.done && m.sys.tcp == l.sys.tcp
            && (m.sys.crashed || SamplesOf(m.log) == SamplesOf(l.log) + seq(|envs|, _ => l.sys.tcp.fire))
  {
    if envs == [] {
      assert SamplesOf(l.log) + [] == SamplesOf(l.log);
    } else {
      var n, fire := |envs| - 1, l.sys.tcp.fire;
      ZeroIntervalSticks(l, envs[..n]);
      var k := LoopRun(l, envs[..n]);
      if !k.sys.crashed {
        StuckTurn(k, envs[n]);
        assert seq(n, _ => fire) + [fire] == seq(n + 1, _ => fire);
        assert SamplesOf(l.log) + seq(n, _ => fire) + [fire] == SamplesOf(l.log) + (seq(n, _ => fire) + [fire]);
      }
    }
  }

  lemma StuckTurn(l: Loop, env: Env)
    requires !Done(l) && l.sys.tcp.interval == 0 && l.todo[0].time >= l.sys.tcp.fire
    ensures var m := LoopStep(l, env);
            && m.todo == l.todo && m.done == l.done && m.sys.tcp == l.sys.tcp
            && SamplesOf(m.log) == SamplesOf(l.log) + [l.sys.tcp.fire]
  {
    InterfereKeeps(l.sys, env);
    var s := Interfere(l.sys, env);
    TickKeepsTcp(s.(tcp := s.tcp.(fire := NextSample(s.tcp))));
    FiredOne(l.log, Sampler(l.sys.tcp.fire));
  }
}
