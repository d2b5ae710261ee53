/** The mutable `scheduler_ctx`: adding events, and the dispatch loop. */
module SchedulerContext {
  import opened Machine
  import opened Action
  import opened ActionContext
  import opened Scheduler
  import opened Dispatch

  /** One more event at the end of the table, if there is room. */
  function AddOne(table: seq<Ev>, time: nat, a: Action): seq<Ev> {
    if |table| < SCHEDULER_MAX_EVENT then table + [Ev(time, a, |table|)] else table
  }

  /** What the packet threads do before each of the first turns of the loop. */
  function FirstTurns(packets: nat -> Env, turns: nat): (r: seq<Env>)
    ensures |r| == turns
  {
    seq(turns, i requires 0 <= i < turns => packets(i))
  }

  lemma NextTurn(l: Loop, packets: nat -> Env, turns: nat)
    ensures LoopRun(l, FirstTurns(packets, turns + 1)) == LoopStep(LoopRun(l, FirstTurns(packets, turns)), packets(turns))
  {
    assert FirstTurns(packets, turns + 1)[..turns] == FirstTurns(packets, turns);
  }

  class SchedulerCtx {
    const events: array<Ev>
    var eventCount: nat

    ghost predicate Valid()
      reads this
    {
      events.Length == SCHEDULER_MAX_EVENT && eventCount <= SCHEDULER_MAX_EVENT
    }

    ghost function Contents(): seq<Ev>
      requires Valid()
      reads this, events
    {
      events[..eventCount]
    }

    constructor ()
      ensures Valid() && fresh(events) && Contents() == []
    {
      events := new Ev[SCHEDULER_MAX_EVENT](_ => Ev(0, Command(""), 0));
      eventCount := 0;
    }

    method AddEvent(time: nat, a: Action) returns (ret: int)
      requires Valid()
      modifies this, events
      ensures Valid() && Contents() == AddOne(old(Contents()), time, a)
      ensures ret == if |old(Contents())| < SCHEDULER_MAX_EVENT then 0 else -1
    {
      if eventCount >= SCHEDULER_MAX_EVENT {
        return -1;
      }
      events[eventCount] := Ev(time, a, eventCount);
      eventCount := eventCount + 1;
      ret := 0;
    }

    /** The state of the dispatch machine that a loop at index `i` has reached. */
    ghost function At(actions: ActionCtx, i: nat, log: seq<Fired>): Loop
      requires Valid() && i <= eventCount
      reads this, events, actions
    {
      Loop(actions.View(), Contents()[..i], Contents()[i..], log)
    }

    /** One turn of the loop of `scheduler_run`, on nominal times, after the packet threads have done
        `env`. */
    method Turn(actions: ActionCtx, i: nat, log: seq<Fired>, env: Env) returns (i': nat, log': seq<Fired>)
      requires Valid() && i < eventCount && !actions.crashed
      modifies actions
      ensures i' <= eventCount && At(actions, i', log') == LoopStep(old(At(actions, i, log)), env)
    {
      ghost var all := Contents();
      assert all[i] == all[i..][0] && all[..i] + [all[i]] == all[..i + 1] && all[i..][1..] == all[i + 1..];
      actions.Meddle(env);
      var next := actions.fire + actions.sampleInterval;
      if events[i].time < next {
        actions.Execute(events[i].action);
        i', log' := i + 1, log + [Event(events[i])];
      } else {
        actions.fire := next;
        actions.TcpSchedule();
        i', log' := i, log + [Sampler(next)];
      }
    }

    /** `scheduler_run` on nominal times, whatever the packet threads do. `sorted` is what `qsort` makes
        of the table. The loop ends, and has then done exactly the turns of the dispatch machine. */
    method Run(actions: ActionCtx, sorted: seq<Ev>, packets: nat -> Env) returns (log: seq<Fired>, turns: nat)
      requires Valid() && IsSortOf(sorted, Contents()) && GoodLoop(Begin(actions.View(), sorted))
      modifies events, actions
      ensures Valid() && Contents() == sorted
      ensures var m := LoopRun(Begin(old(actions.View()), sorted), FirstTurns(packets, turns));
              Done(m) && log == m.log && actions.View() == m.sys
    {
      SameElements(sorted, Contents());
      forall j | 0 <= j < eventCount {
        events[j] := sorted[j];
      }
      assert Contents() == sorted && sorted[..0] == [] && sorted[0..] == sorted;
      var i: nat := 0;
      log, turns := [], 0;
      ghost var l, last := Begin(old(actions.View()), sorted), LatestTime(sorted);
      while i < eventCount && !actions.crashed
        invariant Valid() && Contents() == sorted && i <= eventCount
        invariant LoopRun(l, FirstTurns(packets, turns)) == At(actions, i, log)
        invariant actions.crashed || GoodLoop(At(actions, i, log))
        decreases Rank(At(actions, i, log), last)
      {
        ghost var m := At(actions, i, log);
        NextTurn(l, packets, turns);
        StepKeepsGood(m, packets(turns));
        LatestTimeBounds(sorted, i);
        RankDrops(m, packets(turns), last);
        i, log := Turn(actions, i, log, packets(turns));
        turns := turns + 1;
      }
    }
  }

  function LatestTime(s: seq<Ev>): nat {
    if s == [] then 0 else Max(LatestTime(s[..|s| - 1]), s[|s| - 1].time)
  }

  lemma {:induction false} LatestTimeBounds(s: seq<Ev>, i: nat)
    requires i <= |s|
    ensures forall e :: e in s[i..] ==> e.time <= LatestTime(s)
  {
    if i < |s| {
      LatestTimeBounds(s[..|s| - 1], i);
      assert s[i..] == s[..|s| - 1][i..] + [s[|s| - 1]];
    }
  }
}
