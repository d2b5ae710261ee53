/** Runs in which every handler finds the slots it needs, and the sampler a live worker. */
module Lifecycle {
  import opened Machine
  import opened Action
  import opened Scheduler
  import opened Dispatch
  import opened Merge

  /** Whether an action is about queue `q`. */
  predicate On(a: Action, q: nat) { !a.Command? && a.q == q }

  predicate InitOf(a: Action, q: nat) { a.InitNfqueue? && a.q == q }

  predicate TeardownOf(a: Action, q: nat) { a.TeardownNfqueue? && a.q == q }

  /** A queue is opened before anything else happens to it, once, and left alone after teardown. */
  ghost predicate WellScoped(evs: seq<Ev>) {
    && (forall x :: 0 <= x < |evs| && evs[x].action.InitNfqueue? ==> evs[x].action.q < ACTION_MAX_NFQUEUE)
    && (forall x :: 0 <= x < |evs| && !evs[x].action.InitNfqueue? && !evs[x].action.Command? ==>
          exists y :: 0 <= y < x && InitOf(evs[y].action, evs[x].action.q))
    && (forall x, y :: 0 <= x < y < |evs| && evs[y].action.InitNfqueue? ==> !On(evs[x].action, evs[y].action.q))
    && (forall x, y :: 0 <= x < y < |evs| && evs[x].action.TeardownNfqueue? ==> !On(evs[y].action, evs[x].action.q))
  }

  /** The sampler is set up before it is steered, with sensible parameters. */
  ghost predicate WellSteered(evs: seq<Ev>) {
    && (forall e :: e in evs ==> e.time < NEVER && GoodAction(e.action))
    && AttachFirst(evs)
  }

  /** After the teardown of a queue the sampler was ever linked to, nothing is due later, and
      nothing touches the sampler's start or period. */
  ghost predicate SamplerEndsLast(evs: seq<Ev>) {
    forall x, y, z :: 0 <= x < y < z < |evs| && evs[x].action.Attach? && TeardownOf(evs[y].action, evs[x].action.q)
                      ==> evs[z].time <= evs[y].time && KeepsPeriod(evs[z].action)
  }

  ghost predicate Sound(evs: seq<Ev>) {
    Sorted(evs) && WellScoped(evs) && WellSteered(evs) && SamplerEndsLast(evs)
  }

  predicate Fresh(s: Sys) { s.slots == map[] && Pristine(s.tcp) && !s.crashed }

  ghost predicate Opened(evs: seq<Ev>, n: nat, q: nat)
    requires n <= |evs|
  {
    exists x :: 0 <= x < n && InitOf(evs[x].action, q)
  }

  ghost predicate Closed(evs: seq<Ev>, n: nat, q: nat)
    requires n <= |evs|
  {
    exists x :: 0 <= x < n && TeardownOf(evs[x].action, q)
  }

  /** The loop has dispatched the first `n` events. */
  ghost predicate At(evs: seq<Ev>, m: Loop, n: nat) {
    n <= |evs| && m.done == evs[..n] && m.todo == evs[n..]
  }

  ghost predicate SlotsMatch(evs: seq<Ev>, s: Sys, n: nat)
    requires n <= |evs|
  {
    forall q :: q in s.slots <==> Opened(evs, n, q) && !Closed(evs, n, q)
  }

  /** The linked worker was attached to an opened queue; once that is closed, no sample is due. */
  ghost predicate SamplerSafe(evs: seq<Ev>, tcp: Tcp, n: nat)
    requires n <= |evs|
  {
    tcp.worker.Some? ==>
      var q := tcp.worker.value;
      && Opened(evs, n, q)
      && (exists x :: 0 <= x < n && evs[x].action.Attach? && evs[x].action.q == q)
      && (Closed(evs, n, q) ==>
            forall z :: n <= z < |evs| ==> evs[z].time < NextSample(tcp) && KeepsPeriod(evs[z].action))
  }

  ghost predicate Healthy(evs: seq<Ev>, m: Loop, n: nat) {
    && At(evs, m, n) && !m.sys.crashed && GoodLoop(m)
    && SlotsMatch(evs, m.sys, n) && SamplerSafe(evs, m.sys.tcp, n)
  }

  // ------------------------------------------------------- no handler fails

  lemma NextIsLive(evs: seq<Ev>, s: Sys, n: nat)
    requires n < |evs| && WellScoped(evs) && SlotsMatch(evs, s, n)
    ensures var a := evs[n].action; !a.Command? && !a.InitNfqueue? ==> Live(s, a.q)
  {}

  lemma NextIsReady(m: Loop)
    requires GoodLoop(m) && m.todo != []
    ensures var a := m.todo[0].action; GoodAction(a) && (Steers(a) ==> GoodTcp(m.sys.tcp))
  {}

  lemma SafeWhen(s: Sys, a: Action)
    requires a.InitNfqueue? ==> a.q < ACTION_MAX_NFQUEUE
    requires !a.Command? && !a.InitNfqueue? ==> Live(s, a.q)
    requires GoodAction(a) && (Steers(a) ==> GoodTcp(s.tcp))
    ensures Safe(s, a)
  {}

  lemma NextIsSafe(evs: seq<Ev>, m: Loop, n: nat)
    requires WellScoped(evs) && n < |evs| && At(evs, m, n) && GoodLoop(m) && SlotsMatch(evs, m.sys, n)
    ensures Safe(m.sys, evs[n].action)
  {
    assert m.todo[0] == evs[n];
    NextIsLive(evs, m.sys, n);
    NextIsReady(m);
    SafeWhen(m.sys, evs[n].action);
  }

  /** What an action does to the set of slots. */
  lemma PerformSlots(s: Sys, a: Action)
    requires !s.crashed && Safe(s, a)
    ensures var t := Perform(s, a);
            && !t.crashed
            && t.slots.Keys == (if a.InitNfqueue? then s.slots.Keys + {a.q}
                                else if a.TeardownNfqueue? then s.slots.Keys - {a.q} else s.slots.Keys)
            && t.tcp.worker == (if a.Attach? then Some(a.q) else s.tcp.worker)
            && (a.TeardownNfqueue? ==> t.tcp == s.tcp)
  {}

  lemma OpenedStep(evs: seq<Ev>, n: nat, q: nat)
    requires n < |evs|
    ensures Opened(evs, n + 1, q) <==> Opened(evs, n, q) || InitOf(evs[n].action, q)
    ensures Closed(evs, n + 1, q) <==> Closed(evs, n, q) || TeardownOf(evs[n].action, q)
  {}

  lemma SlotsStep(evs: seq<Ev>, s: Sys, t: Sys, n: nat)
    requires WellScoped(evs) && n < |evs| && SlotsMatch(evs, s, n)
    requires var a := evs[n].action;
             t.slots.Keys == (if a.InitNfqueue? then s.slots.Keys + {a.q}
                              else if a.TeardownNfqueue? then s.slots.Keys - {a.q} else s.slots.Keys)
    ensures SlotsMatch(evs, t, n + 1)
  {
    var a := evs[n].action;
    forall q ensures q in t.slots <==> Opened(evs, n + 1, q) && !Closed(evs, n + 1, q) {
      OpenedStep(evs, n, q);
      assert q in t.slots <==> q in t.slots.Keys;
      assert q in s.slots <==> q in s.slots.Keys;
      if InitOf(a, q) {
        assert !Closed(evs, n, q);
      }
    }
  }

  lemma SamplerAfterTeardown(evs: seq<Ev>, tcp: Tcp, n: nat)
    requires SamplerEndsLast(evs) && n < |evs| && SamplerSafe(evs, tcp, n) && evs[n].time < NextSample(tcp)
    requires tcp.worker.Some? && TeardownOf(evs[n].action, tcp.worker.value)
    ensures SamplerSafe(evs, tcp, n + 1)
  {}

  lemma SamplerAfterAttach(evs: seq<Ev>, s: Sys, tcp: Tcp, n: nat)
    requires n < |evs| && SlotsMatch(evs, s, n) && evs[n].action.Attach? && Live(s, evs[n].action.q)
    requires tcp.worker == Some(evs[n].action.q)
    ensures SamplerSafe(evs, tcp, n + 1)
  {}

  lemma SamplerAfterOther(evs: seq<Ev>, tcp: Tcp, tcp': Tcp, n: nat)
    requires n < |evs| && SamplerSafe(evs, tcp, n) && tcp'.worker == tcp.worker
    requires tcp.worker.Some? ==> !TeardownOf(evs[n].action, tcp.worker.value)
    requires KeepsPeriod(evs[n].action) ==> NextSample(tcp') == NextSample(tcp)
    ensures SamplerSafe(evs, tcp', n + 1)
  {}

  lemma SamplerStep(evs: seq<Ev>, s: Sys, n: nat)
    requires SamplerEndsLast(evs) && n < |evs| && SamplerSafe(evs, s.tcp, n) && SlotsMatch(evs, s, n)
    requires !s.crashed && Safe(s, evs[n].action) && evs[n].time < NextSample(s.tcp)
    ensures SamplerSafe(evs, Perform(s, evs[n].action).tcp, n + 1)
  {
    var a := evs[n].action;
    PerformSlots(s, a);
    if a.Attach? {
      SamplerAfterAttach(evs, s, Perform(s, a).tcp, n);
    } else if s.tcp.worker.Some? && TeardownOf(a, s.tcp.worker.value) {
      SamplerAfterTeardown(evs, s.tcp, n);
    } else {
      if KeepsPeriod(a) { PerformKeepsPeriod(s, a); }
      SamplerAfterOther(evs, s.tcp, Perform(s, a).tcp, n);
    }
  }

  lemma EventTurnHealthy(evs: seq<Ev>, m: Loop, s: Sys, n: nat)
    requires Sound(evs) && Healthy(evs, m, n) && n < |evs|
    requires !s.crashed && s.tcp == m.sys.tcp && s.slots.Keys == m.sys.slots.Keys && evs[n].time < NextSample(s.tcp)
    ensures var t := Perform(s, evs[n].action);
            !t.crashed && SlotsMatch(evs, t, n + 1) && SamplerSafe(evs, t.tcp, n + 1)
  {
    assert SlotsMatch(evs, s, n) by {
      forall q ensures q in s.slots <==> Opened(evs, n, q) && !Closed(evs, n, q) {
        assert q in s.slots <==> q in s.slots.Keys;
      }
    }
    NextIsSafe(evs, m.(sys := s), n);
    PerformSlots(s, evs[n].action);
    SlotsStep(evs, s, Perform(s, evs[n].action), n);
    SamplerStep(evs, s, n);
  }

  lemma SampleTurnHealthy(evs: seq<Ev>, m: Loop, s: Sys, n: nat)
    requires Healthy(evs, m, n) && n < |evs|
    requires !s.crashed && s.tcp == m.sys.tcp && s.slots.Keys == m.sys.slots.Keys && evs[n].time >= NextSample(s.tcp)
    ensures var t := Tick(s.(tcp := s.tcp.(fire := NextSample(s.tcp))));
            !t.crashed && SlotsMatch(evs, t, n) && SamplerSafe(evs, t.tcp, n)
  {}

  lemma AtStep(evs: seq<Ev>, m: Loop, n: nat, env: Env)
    requires At(evs, m, n) && !Done(m)
    ensures var s, k := Interfere(m.sys, env), LoopStep(m, env);
            && n < |evs| && m.todo[0] == evs[n]
            && if evs[n].time < NextSample(s.tcp)
               then At(evs, k, n + 1) && k.sys == Perform(s, evs[n].action)
               else At(evs, k, n) && k.sys == Tick(s.(tcp := s.tcp.(fire := NextSample(s.tcp))))
  {}

  lemma TurnHealthy(evs: seq<Ev>, m: Loop, n: nat, env: Env) returns (k: nat)
    requires Sound(evs) && Healthy(evs, m, n)
    ensures Healthy(evs, LoopStep(m, env), k)
  {
    k := n;
    if !Done(m) {
      var s := Interfere(m.sys, env);
      AtStep(evs, m, n, env);
      InterfereKeeps(m.sys, env);
      StepKeepsGood(m, env);
      if evs[n].time < NextSample(s.tcp) {
        EventTurnHealthy(evs, m, s, n);
        k := n + 1;
      } else {
        SampleTurnHealthy(evs, m, s, n);
      }
    }
  }

  /** Lifecycle safety: over the whole run every handler finds its queue and worker, the sampler
      runs only while its worker is there, and exactly the opened and not yet closed queues are
      live. */
  lemma {:induction false} RunHealthy(evs: seq<Ev>, s: Sys, envs: seq<Env>) returns (n: nat)
    requires Sound(evs) && Fresh(s)
    ensures Healthy(evs, LoopRun(Begin(s, evs), envs), n)
  {
    if envs == [] {
      n := 0;
      assert evs[..0] == [] && evs[0..] == evs;
    } else {
      n := RunHealthy(evs, s, envs[..|envs| - 1]);
      n := TurnHealthy(evs, LoopRun(Begin(s, evs), envs[..|envs| - 1]), n, envs[|envs| - 1]);
    }
  }
}
