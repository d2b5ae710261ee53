/** The emulator from trace to log: read the trace, sort the table, run the loop. */
module Emulator {
  import opened Action
  import opened ActionContext
  import opened Scheduler
  import opened SchedulerContext
  import opened Dispatch
  import opened Lifecycle
  import opened Layout
  import opened Trace
  import opened Parser

  lemma BeginIsGood(evs: seq<Ev>, s: Sys)
    requires Sound(evs) && Fresh(s)
    ensures GoodLoop(Begin(s, evs))
  {}

  /** A trace that fits the table and respects the lifecycle of its queues runs to the end without
      a crash, whatever packets come, and fires each of its events exactly once, in the stable order of
      their times. `junk` is the uninitialised part of the `tcp_ctx`. */
  method Emulate(ls: seq<Line>, junk: Tcp, packets: nat -> Env) returns (log: seq<Fired>, crashed: bool)
    requires TraceOk(ls) && |Table(Compile(ls))| <= SCHEDULER_MAX_EVENT
    ensures !crashed && EventsOf(log) == StableSort(Table(Compile(ls)))
  {
    var scheduler := new SchedulerCtx();
    var actions := new ActionCtx(junk);
    ReadTrace(scheduler, ls);
    ghost var table, fresh' := Table(Compile(ls)), actions.View();
    assert Clip(table) == table;
    var sorted := StableSort(scheduler.events[..scheduler.eventCount]);
    TableNumbered(Compile(ls));
    StableSortSorts(table);
    TraceSound(ls, sorted);
    BeginIsGood(sorted, fresh');
    var turns;
    log, turns := scheduler.Run(actions, sorted, packets);
    crashed := actions.crashed;
    ghost var n := RunHealthy(sorted, fresh', FirstTurns(packets, turns));
    FiresInOrder(fresh', sorted, FirstTurns(packets, turns));
  }
}
