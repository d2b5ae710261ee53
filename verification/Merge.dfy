/** The order in which events and samples fire, and what happens when the period changes. */
module Merge {
  import opened Machine
  import opened Action
  import opened Scheduler
  import opened Dispatch

  function TimeOf(f: Fired): int { if f.Event? then f.e.time else f.time }

  /** `f` may fire before `g`: earlier, or at the same time unless a sample is due first. */
  predicate MayPrecede(f: Fired, g: Fired) {
    TimeOf(f) <= TimeOf(g) && (f.Event? && g.Sampler? ==> TimeOf(f) < TimeOf(g))
  }

  ghost predicate Ordered(log: seq<Fired>) {
    forall i, j :: 0 <= i < j < |log| ==> MayPrecede(log[i], log[j])
  }

  /** The sorted merge of a list of events with a list of samples, samples first on ties. */
  ghost predicate IsMerge(log: seq<Fired>, evs: seq<Ev>, samples: seq<int>) {
    EventsOf(log) == evs && SamplesOf(log) == samples && Ordered(log)
  }

  lemma {:induction false} LastFired(log: seq<Fired>)
    ensures EventsOf(log) != [] ==> Event(EventsOf(log)[|EventsOf(log)| - 1]) in log
    ensures SamplesOf(log) != [] ==> Sampler(SamplesOf(log)[|SamplesOf(log)| - 1]) in log
  {
    if log != [] {
      var n := |log| - 1;
      var before, last := log[..n], log[n];
      assert log == before + [last];
      FiredOne(before, last);
      LastFired(before);
    }
  }

  lemma PrecedesLast(log: seq<Fired>, f: Fired)
    requires Ordered(log) && f in log
    ensures f == log[|log| - 1] || MayPrecede(f, log[|log| - 1])
  {}

  lemma LastOfEither(a: seq<Fired>, b: seq<Fired>)
    requires Ordered(a) && Ordered(b) && a != [] && b != []
    requires EventsOf(a) == EventsOf(b) && SamplesOf(a) == SamplesOf(b)
    ensures !(a[|a| - 1].Event? && b[|b| - 1].Sampler?)
  {
    var x, y := a[|a| - 1], b[|b| - 1];
    if x.Event? && y.Sampler? {
      LastFired(a);
      LastFired(b);
      PrecedesLast(a, y);
      PrecedesLast(b, x);
    }
  }

  lemma EmptyLog(log: seq<Fired>)
    ensures log == [] <==> EventsOf(log) == [] && SamplesOf(log) == []
  {}

  /** A sorted merge is unique. */
  lemma {:induction false} MergeUnique(a: seq<Fired>, b: seq<Fired>)
    requires Ordered(a) && Ordered(b) && EventsOf(a) == EventsOf(b) && SamplesOf(a) == SamplesOf(b)
    ensures a == b
  {
    if a == [] || b == [] {
      EmptyLog(a);
      EmptyLog(b);
    } else {
      LastOfEither(a, b);
      LastOfEither(b, a);
      var m, n := |a| - 1, |b| - 1;
      if a[m].Event? {
        SameButLast(EventsOf(a[..m]), EventsOf(b[..n]), a[m].e, b[n].e);
        assert SamplesOf(a[..m]) + [] == SamplesOf(a[..m]) && SamplesOf(b[..n]) + [] == SamplesOf(b[..n]);
      } else {
        SameButLast(SamplesOf(a[..m]), SamplesOf(b[..n]), a[m].time, b[n].time);
        assert EventsOf(a[..m]) + [] == EventsOf(a[..m]) && EventsOf(b[..n]) + [] == EventsOf(b[..n]);
      }
      MergeUnique(a[..m], b[..n]);
      assert a == a[..m] + [a[m]] && b == b[..n] + [b[n]];
    }
  }

  lemma SameButLast<T>(s: seq<T>, t: seq<T>, x: T, y: T)
    requires s + [x] == t + [y]
    ensures s == t && x == y
  {
    assert |s + [x]| == |t + [y]|;
    assert (s + [x])[..|s|] == s && (t + [y])[..|t|] == t;
    assert (s + [x])[|s|] == x && (t + [y])[|t|] == y;
  }

  // ----------------------------------------------------------- fixed period

  /** Actions that change neither the sampler's start nor its period. */
  predicate KeepsPeriod(a: Action) {
    !a.Attach? && !(a.Burst? && a.mode > 0) && !(a.Adapt? && a.mode > 0)
  }

  lemma PerformKeepsPeriod(s: Sys, a: Action)
    requires KeepsPeriod(a)
    ensures Perform(s, a).tcp.fire == s.tcp.fire && Perform(s, a).tcp.interval == s.tcp.interval
  {}

  ghost predicate TimesUp(evs: seq<Ev>) {
    forall i, j :: 0 <= i <= j < |evs| ==> evs[i].time <= evs[j].time
  }

  lemma SortedTimesUp(evs: seq<Ev>)
    requires Sorted(evs)
    ensures TimesUp(evs)
  {}

  /** The k-th sample after the sampler stood at `from`, with period `p`. */
  function SampleAt(from: int, p: int, k: nat): int {
    if k == 0 then from else SampleAt(from, p, k - 1) + p
  }

  lemma {:induction false} SampleAtIs(from: int, p: int, k: nat)
    ensures SampleAt(from, p, k) == from + k * p
  {
    if k > 0 {
      SampleAtIs(from, p, k - 1);
      assert k * p == (k - 1) * p + p;
    }
  }

  lemma SampleAtNext(from: int, p: int, k: nat)
    ensures SampleAt(from, p, k + 1) == SampleAt(from, p, k) + p
  {}

  /** `m` is reached from `l` by firing `added`. */
  ghost predicate Extends(l: Loop, m: Loop, added: seq<Fired>) {
    m.log == l.log + added && m.done == l.done + EventsOf(added) && m.done + m.todo == l.done + l.todo
  }

  /** The samples among them are those of the fixed period. */
  ghost predicate OnPeriod(l: Loop, m: Loop, added: seq<Fired>) {
    var from, p, samples := l.sys.tcp.fire, l.sys.tcp.interval, SamplesOf(added);
    && m.sys.tcp.interval == p && m.sys.tcp.fire == SampleAt(from, p, |samples|)
    && Periodic(samples, from, p)
  }

  ghost predicate Periodic(samples: seq<int>, from: int, p: int) {
    forall i :: 0 <= i < |samples| ==> samples[i] == SampleAt(from, p, i + 1)
  }

  lemma PeriodicOne(samples: seq<int>, from: int, p: int)
    requires Periodic(samples, from, p)
    ensures Periodic(samples + [SampleAt(from, p, |samples| + 1)], from, p)
  {}

  /** They are in order, before the next sample, and not after any event to come. */
  ghost predicate InOrder(m: Loop, added: seq<Fired>) {
    && Ordered(added) && TimesUp(m.todo)
    && (forall x :: x in added ==> TimeOf(x) < NextSample(m.sys.tcp))
    && (m.todo != [] ==> forall x :: x in added ==> TimeOf(x) <= m.todo[0].time)
  }

  ghost predicate Bounded(l: Loop, added: seq<Fired>) {
    forall x :: x in added ==> l.todo != [] && TimeOf(x) <= l.todo[|l.todo| - 1].time
  }

  ghost predicate Merged(l: Loop, m: Loop, added: seq<Fired>) {
    Extends(l, m, added) && OnPeriod(l, m, added) && InOrder(m, added) && Bounded(l, added)
  }

  /** What a turn that dispatches an event does to the parts that matter here. */
  ghost predicate EventTurn(m: Loop, n: Loop) {
    && m.todo != [] && m.todo[0].time < NextSample(m.sys.tcp)
    && n.log == m.log + [Event(m.todo[0])] && n.done == m.done + [m.todo[0]] && n.todo == m.todo[1..]
    && n.sys.tcp.fire == m.sys.tcp.fire && n.sys.tcp.interval == m.sys.tcp.interval
  }

  ghost predicate SampleTurn(m: Loop, n: Loop) {
    && m.todo != [] && m.todo[0].time >= NextSample(m.sys.tcp)
    && n.log == m.log + [Sampler(NextSample(m.sys.tcp))] && n.done == m.done && n.todo == m.todo
    && n.sys.tcp.fire == NextSample(m.sys.tcp) && n.sys.tcp.interval == m.sys.tcp.interval
  }

  lemma TurnIs(m: Loop, env: Env)
    requires !Done(m)
    ensures var n := LoopStep(m, env);
            if m.todo[0].time < NextSample(m.sys.tcp)
            then n.done == m.done + [m.todo[0]] && n.todo == m.todo[1..]
                 && (KeepsPeriod(m.todo[0].action) ==> EventTurn(m, n))
            else SampleTurn(m, n)
  {}

  lemma ExtendsOne(l: Loop, m: Loop, n: Loop, added: seq<Fired>, f: Fired)
    requires Extends(l, m, added) && n.log == m.log + [f] && n.done + n.todo == m.done + m.todo
    requires n.done == if f.Event? then m.done + [f.e] else m.done
    ensures Extends(l, n, added + [f])
  {}

  lemma InOrderOne(l: Loop, m: Loop, n: Loop, added: seq<Fired>, f: Fired)
    requires InOrder(m, added) && Bounded(l, added) && m.todo != [] && TimesUp(n.todo)
    requires forall x :: x in added ==> MayPrecede(x, f)
    requires TimeOf(f) <= m.todo[0].time && TimeOf(f) < NextSample(n.sys.tcp) && NextSample(m.sys.tcp) <= NextSample(n.sys.tcp)
    requires n.todo != [] ==> m.todo[0].time <= n.todo[0].time
    requires l.todo != [] && m.todo[0].time <= l.todo[|l.todo| - 1].time
    ensures InOrder(n, added + [f]) && Bounded(l, added + [f])
  {}

  lemma LastOfTodo(l: Loop, m: Loop)
    requires m.done + m.todo == l.done + l.todo && |l.done| <= |m.done| && m.todo != [] && TimesUp(m.todo)
    ensures l.todo != [] && m.todo[0].time <= l.todo[|l.todo| - 1].time
  {
    var all := m.done + m.todo;
    assert all[|all| - 1] == m.todo[|m.todo| - 1];
    assert (l.done + l.todo)[|all| - 1] == l.todo[|l.todo| - 1];
  }

  lemma MergeEvent(l: Loop, m: Loop, n: Loop, added: seq<Fired>)
    requires Merged(l, m, added) && EventTurn(m, n)
    ensures Merged(l, n, added + [Event(m.todo[0])])
  {
    var f := Event(m.todo[0]);
    assert n.done + n.todo == m.done + m.todo;
    ExtendsOne(l, m, n, added, f);
    FiredOne(added, f);
    assert OnPeriod(l, n, added + [f]);
    assert forall i :: 0 <= i < |n.todo| ==> n.todo[i] == m.todo[i + 1];
    LastOfTodo(l, m);
    InOrderOne(l, m, n, added, f);
  }

  lemma OnPeriodSample(l: Loop, m: Loop, n: Loop, added: seq<Fired>)
    requires OnPeriod(l, m, added) && SampleTurn(m, n)
    ensures OnPeriod(l, n, added + [Sampler(NextSample(m.sys.tcp))])
  {
    var from, p, samples, next := l.sys.tcp.fire, l.sys.tcp.interval, SamplesOf(added), NextSample(m.sys.tcp);
    assert next == SampleAt(from, p, |samples| + 1) by { SampleAtNext(from, p, |samples|); }
    PeriodicOne(samples, from, p);
    FiredOne(added, Sampler(next));
  }

  lemma MergeSample(l: Loop, m: Loop, n: Loop, added: seq<Fired>)
    requires Merged(l, m, added) && SampleTurn(m, n) && l.sys.tcp.interval > 0
    ensures Merged(l, n, added + [Sampler(NextSample(m.sys.tcp))])
  {
    var f := Sampler(NextSample(m.sys.tcp));
    ExtendsOne(l, m, n, added, f);
    OnPeriodSample(l, m, n, added);
    LastOfTodo(l, m);
    InOrderOne(l, m, n, added, f);
  }

  /** No event dispatched since `l` has changed the sampler's start or period. */
  ghost predicate QuietSince(l: Loop, m: Loop) {
    forall i :: |l.done| <= i < |m.done| ==> KeepsPeriod(m.done[i].action)
  }

  lemma {:induction false} FixedPeriod(l: Loop, envs: seq<Env>) returns (added: seq<Fired>)
    requires l.sys.tcp.interval > 0 && TimesUp(l.todo) && QuietSince(l, LoopRun(l, envs))
    ensures Merged(l, LoopRun(l, envs), added)
  {
    if envs == [] {
      added := [];
      assert l.log + [] == l.log && l.done + [] == l.done;
    } else {
      var k := |envs| - 1;
      var m, n := LoopRun(l, envs[..k]), LoopRun(l, envs);
      assert n == LoopStep(m, envs[k]);
      if Done(m) {
        added := FixedPeriod(l, envs[..k]);
      } else {
        TurnIs(m, envs[k]);
        assert forall i :: 0 <= i < |m.done| ==> n.done[i] == m.done[i];
        added := FixedPeriod(l, envs[..k]);
        if m.todo[0].time < NextSample(m.sys.tcp) {
          assert n.done[|m.done|] == m.todo[0];
          MergeEvent(l, m, n, added);
          added := added + [Event(m.todo[0])];
        } else {
          MergeSample(l, m, n, added);
          added := added + [Sampler(NextSample(m.sys.tcp))];
        }
      }
    }
  }

  lemma {:induction false} DoneSplits(l: Loop, envs: seq<Env>)
    ensures LoopRun(l, envs).done + LoopRun(l, envs).todo == l.done + l.todo
  {
    if envs != [] {
      DoneSplits(l, envs[..|envs| - 1]);
      StepKeepsEvents(LoopRun(l, envs[..|envs| - 1]), envs[|envs| - 1]);
    }
  }

  lemma AllDispatched(l: Loop, envs: seq<Env>)
    requires LoopRun(l, envs).todo == [] && forall e :: e in l.todo ==> KeepsPeriod(e.action)
    ensures LoopRun(l, envs).done == l.done + l.todo && QuietSince(l, LoopRun(l, envs))
  {
    var m := LoopRun(l, envs);
    DoneSplits(l, envs);
    assert m.done + [] == m.done;
    forall i | |l.done| <= i < |m.done| ensures KeepsPeriod(m.done[i].action) {
      assert m.done[i] == l.todo[i - |l.done|];
    }
  }

  /** The samples of a finished run are exactly those due up to the last event. */
  lemma SamplesDue(l: Loop, m: Loop, added: seq<Fired>)
    requires Merged(l, m, added) && EventsOf(added) == l.todo && l.todo != []
    ensures var from, p, k, last := l.sys.tcp.fire, l.sys.tcp.interval, |SamplesOf(added)|, l.todo[|l.todo| - 1].time;
            && (k > 0 ==> SampleAt(from, p, k) <= last)
            && last < SampleAt(from, p, k + 1)
  {
    var k, e := |SamplesOf(added)|, l.todo[|l.todo| - 1];
    LastFired(added);
    assert Event(e) in added;
    SampleAtNext(l.sys.tcp.fire, l.sys.tcp.interval, k);
  }

  /** From `l` to the end `m` of the run, what fired is the sorted merge of the events to come with
      the samples `fire + k * period` due up to the last of them. */
  ghost predicate MergesRest(l: Loop, m: Loop, added: seq<Fired>)
    requires l.todo != []
  {
    var from, p, k, last := l.sys.tcp.fire, l.sys.tcp.interval, |SamplesOf(added)|, l.todo[|l.todo| - 1].time;
    && m.log == l.log + added && IsMerge(added, l.todo, SamplesOf(added))
    && Periodic(SamplesOf(added), from, p)
    && (k > 0 ==> SampleAt(from, p, k) <= last)
    && last < SampleAt(from, p, k + 1)
  }

  /** While the period is fixed, the log of a finished run is the sorted merge of the events with
      the samples `fire + k * period`, samples first on ties; and the samples are exactly those due
      up to the last event. */
  lemma MergeCorrect(l: Loop, envs: seq<Env>) returns (added: seq<Fired>)
    requires l.sys.tcp.interval > 0 && TimesUp(l.todo) && l.todo != []
    requires forall e :: e in l.todo ==> KeepsPeriod(e.action)
    requires LoopRun(l, envs).todo == []
    ensures MergesRest(l, LoopRun(l, envs), added)
  {
    AllDispatched(l, envs);
    added := FixedPeriod(l, envs);
    assert EventsOf(added) == l.todo by {
      assert (l.done + EventsOf(added))[|l.done|..] == EventsOf(added);
      assert (l.done + l.todo)[|l.done|..] == l.todo;
    }
    SamplesDue(l, LoopRun(l, envs), added);
  }

  /** The same for the sorted table of a whole run: whatever came before, from the moment no event to
      come changes the sampler, the rest of the log is the sorted merge of the rest of the table with
      the samples due. */
  lemma MergeOfTable(s: Sys, table: seq<Ev>, sorted: seq<Ev>, before: seq<Env>, envs: seq<Env>) returns (added: seq<Fired>)
    requires Numbered(table) && IsSortOf(sorted, table)
    requires var l := LoopRun(Begin(s, sorted), before);
             && l.sys.tcp.interval > 0 && l.todo != [] && (forall e :: e in l.todo ==> KeepsPeriod(e.action))
             && LoopRun(l, envs).todo == []
    ensures var l := LoopRun(Begin(s, sorted), before);
            l.done + l.todo == StableSort(table) && MergesRest(l, LoopRun(l, envs), added)
  {
    SortDeterministic(sorted, table);
    RestOfTable(s, sorted, before);
    added := MergeCorrect(LoopRun(Begin(s, sorted), before), envs);
  }

  lemma RestOfTable(s: Sys, sorted: seq<Ev>, before: seq<Env>)
    requires Sorted(sorted)
    ensures var l := LoopRun(Begin(s, sorted), before); l.done + l.todo == sorted && TimesUp(l.todo)
  {
    var l := LoopRun(Begin(s, sorted), before);
    assert l.done + l.todo == sorted by {
      DoneSplits(Begin(s, sorted), before);
      assert [] + sorted == sorted;
    }
    SortedTimesUp(sorted);
    TailTimesUp(l.done, l.todo);
  }

  lemma TailTimesUp(a: seq<Ev>, b: seq<Ev>)
    requires TimesUp(a + b)
    ensures TimesUp(b)
  {
    assert forall i :: 0 <= i < |b| ==> b[i] == (a + b)[|a| + i];
  }

  // -------------------------------------------------------- changed period

  /** Catch-up: after an event at time `at` changes the period from `p` to `q`, and until the next
      change, every sample is later than `at - (p - q)`, and at most `ceil((p - q) / q)`, that is
      `(p - 1) / q`, of them are due at or before `at`. */
  lemma CatchUp(l: Loop, env: Env, envs: seq<Env>) returns (added: seq<Fired>)
    requires !Done(l) && l.todo[0].time < NextSample(l.sys.tcp) && TimesUp(l.todo)
    requires var m := LoopStep(l, env);
             m.sys.tcp.fire == l.sys.tcp.fire && m.sys.tcp.interval > 0 && QuietSince(m, LoopRun(m, envs))
    ensures var m, at := LoopStep(l, env), l.todo[0].time;
            var p, q, samples := l.sys.tcp.interval, m.sys.tcp.interval, SamplesOf(added);
            && LoopRun(m, envs).log == m.log + added
            && forall i :: 0 <= i < |samples| ==>
                 samples[i] > at - (p - q) && (samples[i] <= at ==> i < (p - 1) / q)
  {
    var m, at := LoopStep(l, env), l.todo[0].time;
    TurnIs(l, env);
    assert forall i :: 0 <= i < |m.todo| ==> m.todo[i] == l.todo[i + 1];
    added := FixedPeriod(m, envs);
    forall i | 0 <= i < |SamplesOf(added)|
      ensures var p, q, t := l.sys.tcp.interval, m.sys.tcp.interval, SamplesOf(added)[i];
              t > at - (p - q) && (t <= at ==> i < (p - 1) / q)
    {
      CatchUpOne(l.sys.tcp.fire, l.sys.tcp.interval, m.sys.tcp.interval, at, i);
    }
  }

  lemma CatchUpOne(from: int, p: int, q: int, at: int, i: nat)
    requires at < from + p && q > 0
    ensures SampleAt(from, q, i + 1) > at - (p - q)
    ensures SampleAt(from, q, i + 1) <= at ==> i < (p - 1) / q
  {
    SampleAtIs(from, q, i + 1);
    assert (i + 1) * q == i * q + q && i * q >= 0;
    if SampleAt(from, q, i + 1) <= at {
      DivLe(i + 1, p - 1, q);
    }
  }
}
