/** The trace compiler (src/event.c), after tokenising: every line expands into timed events, which
    are appended to the scheduler's table in file order. */
module Trace {
  import opened Machine
  import opened Worker
  import opened Action
  import opened Scheduler
  import opened Dispatch
  import opened Merge
  import opened Lifecycle
  import opened Layout

  /** A trace line with its fields in range. `junk` is the uninitialised memory the new queue will
      get when the line's first event fires. */
  datatype Line =
    | Init(time: nat, q: nat, mark: int, end: nat, junk: Junk)
    | Cmd(time: nat, text: string)
    | Ho(time: nat, q: nat, mark: int, gap: nat, count: int, offset: int, loss: int)
    | HandleDup(time: nat, q: nat, enable: bool)
    | InitSched(time: nat, q: nat, args: SchedArgs)
    | SolHo(time: nat, q: nat, mark: int, freeze: bool, freezeMs: nat, dedup: bool, smoothMs: nat,
            burstMs: nat, adapt: int)
    | Unknown(time: nat)

  function When(c: bool, es: seq<Timed>): seq<Timed> { if c then es else [] }

  function CompileInit(l: Line): seq<Timed>
    requires l.Init?
  {
    [Timed(l.time, InitNfqueue(l.q, l.junk)), Timed(l.end, TeardownNfqueue(l.q)), Timed(l.time, StartNfqueue(l.q))]
    + When(l.mark > 0, [Timed(l.time, Set(l.q, SetMark(ToU32(l.mark))))])
  }

  /** The number of packets a handover drops: a reordering handover overrides the trace's loss. */
  function DropCount(l: Line): int
    requires l.Ho?
  {
    if l.count > 0 then l.count + 10 else l.loss
  }

  function CompileHo(l: Line): seq<Timed>
    requires l.Ho?
  {
    [Timed(l.time, StopNfqueue(l.q)), Timed(l.time + l.gap, StartNfqueue(l.q)), Timed(l.time, Set(l.q, SetMark(ToU32(l.mark))))]
    + When(DropCount(l) > 0, [Timed(l.time, Set(l.q, SetDrop(true, DropCount(l))))])
    + When(l.count > 0, [Timed(l.time, Set(l.q, SetReorder(true, ToU16(l.count), ToU16(l.offset))))])
  }

  function ThawTime(l: Line): nat
    requires l.SolHo?
  {
    l.time + l.freezeMs
  }

  function SettleTime(l: Line): nat
    requires l.SolHo?
  {
    l.time + l.freezeMs + l.burstMs
  }

  function CompileSolHo(l: Line): seq<Timed>
    requires l.SolHo?
  {
    [Timed(l.time, Solution(l.q, l.mark))]
    + When(l.freeze, [Timed(l.time, Freeze(l.q, ToU16(l.mark)))])
    + When(l.dedup, [Timed(ThawTime(l), Set(l.q, SetDedup(true))), Timed(ThawTime(l) + l.smoothMs, Set(l.q, SetDedup(false)))])
    + When(l.burstMs > 0, [Timed(ThawTime(l), Burst(l.q, 1)), Timed(SettleTime(l), Burst(l.q, 0))])
    + When(l.adapt > 0, [Timed(SettleTime(l), Adapt(l.q, l.adapt))])
  }

  /** What a SOL_INIT_SCHED sets up: the line's parameters, starting on link 1. */
  function SetUpArgs(l: Line): SchedArgs
    requires l.InitSched?
  {
    l.args.(mark := 1)
  }

  function CompileLine(l: Line): seq<Timed> {
    match l
    case Init(_, _, _, _, _) => CompileInit(l)
    case Cmd(t, text) => [Timed(t, Command(text))]
    case Ho(_, _, _, _, _, _, _) => CompileHo(l)
    case HandleDup(t, q, on) => [Timed(t, Set(q, SetDedup(on)))]
    case InitSched(t, q, _) => [Timed(t, Attach(q, SetUpArgs(l)))]
    case SolHo(_, _, _, _, _, _, _, _, _) => CompileSolHo(l)
    case Unknown(_) => []
  }

  /** What each line of a trace compiles to. */
  function Compile(ls: seq<Line>): (cs: Chunks)
    ensures |cs| == |ls|
  {
    seq(|ls|, i requires 0 <= i < |ls| => CompileLine(ls[i]))
  }

  // ------------------------------------------------- which line does what

  predicate HasQueue(l: Line) { !l.Cmd? && !l.Unknown? }

  /** What the `k`-th event `e` of line `l` says about queues. */
  predicate QueueFact(l: Line, k: int, e: Timed) {
    && (e.action.Command? <==> l.Cmd?)
    && (!l.Cmd? ==> HasQueue(l) && e.action.q == l.q)
    && (e.action.InitNfqueue? <==> l.Init? && k == 0)
    && (e.action.TeardownNfqueue? <==> l.Init? && k == 1)
    && (e.action.TeardownNfqueue? ==> e.time == l.end)
    && (!e.action.TeardownNfqueue? ==> l.time <= e.time)
    && (l.Init? && k != 1 ==> e.time == l.time)
  }

  /** What it says about the sampler. */
  predicate SteerFact(l: Line, k: int, e: Timed) {
    && (e.action.Attach? <==> l.InitSched?)
    && (e.action.Attach? ==> k == 0 && e.time == l.time && e.action.args == SetUpArgs(l))
    && (Steers(e.action) ==> l.SolHo?)
    && (e.action.Solution? ==> l.SolHo? && e.action.mark == l.mark)
  }

  lemma QueueFacts(l: Line, k: int)
    requires 0 <= k < |CompileLine(l)|
    ensures QueueFact(l, k, CompileLine(l)[k])
  {
    if l.SolHo? { SolHoQueue(l, k); } else if l.Ho? { HoQueue(l, k); }
  }

  lemma SolHoQueue(l: Line, k: int)
    requires l.SolHo? && 0 <= k < |CompileSolHo(l)|
    ensures QueueFact(l, k, CompileSolHo(l)[k])
  {}

  lemma HoQueue(l: Line, k: int)
    requires l.Ho? && 0 <= k < |CompileHo(l)|
    ensures QueueFact(l, k, CompileHo(l)[k])
  {}

  lemma SteerFacts(l: Line, k: int)
    requires 0 <= k < |CompileLine(l)|
    ensures SteerFact(l, k, CompileLine(l)[k])
  {
    if l.SolHo? { SolHoSteers(l, k); }
  }

  lemma SolHoSteers(l: Line, k: int)
    requires l.SolHo? && 0 <= k < |CompileSolHo(l)|
    ensures SteerFact(l, k, CompileSolHo(l)[k])
  {}

  ghost predicate Starts(l: Line, c: seq<Timed>) {
    && (l.Init? ==>
          && |c| >= 3 && c[0] == Timed(l.time, InitNfqueue(l.q, l.junk))
          && c[1] == Timed(l.end, TeardownNfqueue(l.q)) && c[2] == Timed(l.time, StartNfqueue(l.q)))
    && (l.InitSched? ==> |c| == 1 && c[0] == Timed(l.time, Attach(l.q, SetUpArgs(l))))
  }

  /** All that the proofs about queues and the sampler need to know of the compiled trace. */
  ghost predicate Compiled(ls: seq<Line>, cs: Chunks) {
    && |cs| == |ls|
    && (forall i, k :: Has(cs, i, k) ==> QueueFact(ls[i], k, cs[i][k]))
    && (forall i, k :: Has(cs, i, k) ==> SteerFact(ls[i], k, cs[i][k]))
    && (forall i :: 0 <= i < |cs| ==> Starts(ls[i], cs[i]))
  }

  lemma CompileIsCompiled(ls: seq<Line>)
    ensures Compiled(ls, Compile(ls))
  {
    var cs := Compile(ls);
    forall i, k | Has(cs, i, k) ensures QueueFact(ls[i], k, cs[i][k]) && SteerFact(ls[i], k, cs[i][k]) {
      QueueFacts(ls[i], k);
      SteerFacts(ls[i], k);
    }
  }

  // ---------------------------------------------------- well-formed traces

  /** One INIT per queue. */
  ghost predicate OneInit(ls: seq<Line>) {
    && (forall i :: 0 <= i < |ls| && ls[i].Init? ==> ls[i].q < ACTION_MAX_NFQUEUE)
    && (forall i, j :: 0 <= i < |ls| && 0 <= j < |ls| && ls[i].Init? && ls[j].Init? && ls[i].q == ls[j].q ==> i == j)
  }

  /** Line `j` opens the queue of line `i`, no later by (time, position). */
  predicate Opens(ls: seq<Line>, j: int, i: int) {
    && 0 <= i < |ls| && 0 <= j < |ls|
    && ls[j].Init? && HasQueue(ls[i]) && ls[j].q == ls[i].q
    && (j == i || LexBefore(ls[j].time, j, ls[i].time, i))
  }

  ghost predicate EndsBefore(c: seq<Timed>, end: nat) {
    forall k :: 0 <= k < |c| && !c[k].action.TeardownNfqueue? ==> c[k].time < end
  }

  /** Every line about a queue comes after its INIT, and all its events before that one's end. */
  ghost predicate WithinLife(ls: seq<Line>, cs: Chunks)
    requires |cs| == |ls|
  {
    forall i :: 0 <= i < |ls| && HasQueue(ls[i]) ==> exists j :: Opens(ls, j, i) && EndsBefore(cs[i], ls[j].end)
  }

  predicate SetUpBefore(ls: seq<Line>, j: int, i: int) {
    0 <= i < |ls| && 0 <= j < |ls| && ls[j].InitSched? && LexBefore(ls[j].time, j, ls[i].time, i)
  }

  /** Times, intervals, round trips and marks in range; SOL_HO only after a SOL_INIT_SCHED. */
  ghost predicate WellSet(ls: seq<Line>, cs: Chunks) {
    && (forall i, k :: Has(cs, i, k) ==> cs[i][k].time < NEVER)
    && (forall i :: 0 <= i < |ls| && ls[i].InitSched? ==> GoodArgs(SetUpArgs(ls[i])))
    && (forall i :: 0 <= i < |ls| && ls[i].SolHo? ==> KnownMark(ls[i].mark) && exists j :: SetUpBefore(ls, j, i))
  }

  ghost predicate NothingAfter(cs: Chunks, end: nat) {
    forall i, k :: Has(cs, i, k) ==> cs[i][k].time <= end && (cs[i][k].time == end ==> KeepsPeriod(cs[i][k].action))
  }

  /** A queue the sampler is linked to ends last, and nothing changes the sampler at that time. */
  ghost predicate SampledEndsLast(ls: seq<Line>, cs: Chunks) {
    forall i, j :: 0 <= i < |ls| && 0 <= j < |ls| && ls[i].InitSched? && ls[j].Init? && ls[i].q == ls[j].q ==>
      NothingAfter(cs, ls[j].end)
  }

  ghost predicate TraceOk(ls: seq<Line>) {
    var cs := Compile(ls);
    OneInit(ls) && WithinLife(ls, cs) && WellSet(ls, cs) && SampledEndsLast(ls, cs)
  }

  // -------------------------------------------- such traces run safely

  lemma OwnLine(ls: seq<Line>, cs: Chunks, j: int, i: int)
    requires OneInit(ls) && Compiled(ls, cs) && Opens(ls, j, i) && EndsBefore(cs[i], ls[j].end) && ls[i].Init?
    ensures j == i && ls[i].time < ls[i].end
  {}

  /** The opening and the teardown of the queue of event `k` of line `i`, in (time, position). */
  lemma ScopeOfLine(ls: seq<Line>, cs: Chunks, i: int, k: int) returns (j: int)
    requires OneInit(ls) && Compiled(ls, cs) && WithinLife(ls, cs) && Has(cs, i, k) && !cs[i][k].action.Command?
    ensures 0 <= j < |ls| && ls[j].Init? && ls[j].q == cs[i][k].action.q && Has(cs, j, 0) && Has(cs, j, 1)
    ensures ls[i].Init? ==> j == i
    ensures !cs[i][k].action.InitNfqueue? ==> ComesBefore(cs, j, 0, i, k)
    ensures !cs[i][k].action.TeardownNfqueue? ==> ComesBefore(cs, i, k, j, 1)
  {
    assert QueueFact(ls[i], k, cs[i][k]);
    j :| Opens(ls, j, i) && EndsBefore(cs[i], ls[j].end);
    assert Starts(ls[j], cs[j]);
    if ls[i].Init? {
      OwnLine(ls, cs, j, i);
    }
  }

  lemma ScopeOf(ls: seq<Line>, cs: Chunks, evs: seq<Ev>, x: int) returns (j: int, y: int, z: int)
    requires OneInit(ls) && Compiled(ls, cs) && WithinLife(ls, cs) && SortedTrace(cs, evs)
    requires 0 <= x < |evs| && !evs[x].action.Command?
    ensures 0 <= j < |ls| && ls[j].Init? && ls[j].q == evs[x].action.q && Has(cs, j, 0) && Has(cs, j, 1)
    ensures 0 <= y < |evs| && evs[y] == EvAt(cs, j, 0) && 0 <= z < |evs| && evs[z] == EvAt(cs, j, 1)
    ensures if evs[x].action.InitNfqueue? then x == y else y < x
    ensures if evs[x].action.TeardownNfqueue? then x == z else x < z
  {
    var i, k := Origin(cs, evs, x);
    j := ScopeOfLine(ls, cs, i, k);
    y := Placed(cs, evs, j, 0);
    z := Placed(cs, evs, j, 1);
    assert QueueFact(ls[i], k, cs[i][k]);
    PlacedBefore(cs, evs, j, 0, i, k, y, x);
    PlacedBefore(cs, evs, i, k, j, 1, x, z);
    PlacedBefore(cs, evs, i, k, j, 0, x, y);
    PlacedBefore(cs, evs, j, 1, i, k, z, x);
  }

  lemma InitsInRange(ls: seq<Line>, cs: Chunks, evs: seq<Ev>, x: int)
    requires OneInit(ls) && Compiled(ls, cs) && SortedTrace(cs, evs) && 0 <= x < |evs| && evs[x].action.InitNfqueue?
    ensures evs[x].action.q < ACTION_MAX_NFQUEUE
  {
    var i, k := Origin(cs, evs, x);
    assert QueueFact(ls[i], k, cs[i][k]);
  }

  /** Two events on one queue lie between the same opening and the same teardown. */
  lemma SameScope(ls: seq<Line>, cs: Chunks, evs: seq<Ev>, x: int, y: int)
    requires OneInit(ls) && Compiled(ls, cs) && WithinLife(ls, cs) && SortedTrace(cs, evs)
    requires 0 <= x < y < |evs| && !evs[y].action.Command? && On(evs[x].action, evs[y].action.q)
    ensures !evs[y].action.InitNfqueue? && !evs[x].action.TeardownNfqueue?
  {
    var j, a, b := ScopeOf(ls, cs, evs, x);
    var j', a', b' := ScopeOf(ls, cs, evs, y);
    assert j == j';
    PlacedOnce(cs, evs, j, 0, a, a');
    PlacedOnce(cs, evs, j, 1, b, b');
  }

  lemma TraceWellScoped(ls: seq<Line>, cs: Chunks, evs: seq<Ev>)
    requires OneInit(ls) && Compiled(ls, cs) && WithinLife(ls, cs) && SortedTrace(cs, evs)
    ensures WellScoped(evs)
  {
    forall x | 0 <= x < |evs| && evs[x].action.InitNfqueue? ensures evs[x].action.q < ACTION_MAX_NFQUEUE {
      InitsInRange(ls, cs, evs, x);
    }
    forall x | 0 <= x < |evs| && !evs[x].action.InitNfqueue? && !evs[x].action.Command?
      ensures exists y :: 0 <= y < x && InitOf(evs[y].action, evs[x].action.q)
    {
      var j, y, z := ScopeOf(ls, cs, evs, x);
      assert Starts(ls[j], cs[j]);
      assert InitOf(evs[y].action, evs[x].action.q);
    }
    forall x, y | 0 <= x < y < |evs| && evs[y].action.InitNfqueue? ensures !On(evs[x].action, evs[y].action.q) {
      if On(evs[x].action, evs[y].action.q) { SameScope(ls, cs, evs, x, y); }
    }
    forall x, y | 0 <= x < y < |evs| && evs[x].action.TeardownNfqueue? ensures !On(evs[y].action, evs[x].action.q) {
      if On(evs[y].action, evs[x].action.q) { SameScope(ls, cs, evs, x, y); }
    }
  }

  lemma GoodEvent(ls: seq<Line>, cs: Chunks, evs: seq<Ev>, x: int)
    requires Compiled(ls, cs) && WellSet(ls, cs) && SortedTrace(cs, evs) && 0 <= x < |evs|
    ensures evs[x].time < NEVER && GoodAction(evs[x].action)
  {
    var i, k := Origin(cs, evs, x);
    assert SteerFact(ls[i], k, cs[i][k]);
  }

  lemma SetUpFirst(ls: seq<Line>, cs: Chunks, evs: seq<Ev>, x: int) returns (y: int)
    requires Compiled(ls, cs) && WellSet(ls, cs) && SortedTrace(cs, evs) && 0 <= x < |evs| && Steers(evs[x].action)
    ensures 0 <= y < x && evs[y].action.Attach?
  {
    var i, k := Origin(cs, evs, x);
    assert SteerFact(ls[i], k, cs[i][k]) && QueueFact(ls[i], k, cs[i][k]);
    var j :| SetUpBefore(ls, j, i);
    assert Starts(ls[j], cs[j]);
    y := Placed(cs, evs, j, 0);
    PlacedBefore(cs, evs, j, 0, i, k, y, x);
  }

  lemma TraceWellSteered(ls: seq<Line>, cs: Chunks, evs: seq<Ev>)
    requires Compiled(ls, cs) && WellSet(ls, cs) && SortedTrace(cs, evs)
    ensures WellSteered(evs)
  {
    forall e | e in evs ensures e.time < NEVER && GoodAction(e.action) {
      var x :| 0 <= x < |evs| && evs[x] == e;
      GoodEvent(ls, cs, evs, x);
    }
    forall x | 0 <= x < |evs| && Steers(evs[x].action) ensures exists y :: 0 <= y < x && evs[y].action.Attach? {
      var y := SetUpFirst(ls, cs, evs, x);
    }
  }

  lemma TraceSamplerEnds(ls: seq<Line>, cs: Chunks, evs: seq<Ev>)
    requires Compiled(ls, cs) && SampledEndsLast(ls, cs) && SortedTrace(cs, evs)
    ensures SamplerEndsLast(evs)
  {
    forall x, y, z | 0 <= x < y < z < |evs| && evs[x].action.Attach? && TeardownOf(evs[y].action, evs[x].action.q)
      ensures evs[z].time <= evs[y].time && KeepsPeriod(evs[z].action)
    {
      var i, k := Origin(cs, evs, x);
      var j, h := Origin(cs, evs, y);
      var m, n := Origin(cs, evs, z);
      assert SteerFact(ls[i], k, cs[i][k]) && QueueFact(ls[i], k, cs[i][k]) && QueueFact(ls[j], h, cs[j][h]);
      assert NothingAfter(cs, ls[j].end);
      assert cs[m][n].time <= ls[j].end;
      assert Compare(evs[y], evs[z]) <= 0;
    }
  }

  lemma TraceSound(ls: seq<Line>, evs: seq<Ev>)
    requires TraceOk(ls) && SortedTrace(Compile(ls), evs)
    ensures Sound(evs)
  {
    var cs := Compile(ls);
    CompileIsCompiled(ls);
    TraceWellScoped(ls, cs, evs);
    TraceWellSteered(ls, cs, evs);
    TraceSamplerEnds(ls, cs, evs);
  }

  /** Lifecycle safety of a trace: when every line about a queue comes after its INIT and all its
      times before the end, SOL_HO after SOL_INIT_SCHED, and the sampled queue ends last, then over
      the whole run, whatever the packets do, every handler finds its queue and worker and the
      sampler only ever runs on a live worker. And the run ends, with every event fired once. */
  lemma TraceRunsSafely(ls: seq<Line>, evs: seq<Ev>, s: Sys, envs: seq<Env>, last: nat)
    requires TraceOk(ls) && SortedTrace(Compile(ls), evs) && Fresh(s)
    requires forall e :: e in evs ==> e.time <= last
    ensures var m := LoopRun(Begin(s, evs), envs);
            && !m.sys.crashed
            && EventsOf(m.log) == m.done && m.done + m.todo == evs
            && (|envs| >= Rank(Begin(s, evs), last) ==> EventsOf(m.log) == evs)
  {
    TraceSound(ls, evs);
    var n := RunHealthy(evs, s, envs);
    FiresInOrder(s, evs, envs);
    LoopTerminates(Begin(s, evs), envs, last);
  }

  predicate CmdAt(ls: seq<Line>, i: int) { 0 <= i < |ls| && ls[i].Cmd? }

  /** Every CMD line runs its command once, at its time, in (time, position) order: `x` and `y` are the
      places of two of them among the events that fire. */
  lemma CommandsFire(ls: seq<Line>, evs: seq<Ev>, i: int, j: int) returns (x: int, y: int)
    requires SortedTrace(Compile(ls), evs) && CmdAt(ls, i) && CmdAt(ls, j)
    ensures 0 <= x < |evs| && evs[x].time == ls[i].time && evs[x].action == Command(ls[i].text)
    ensures 0 <= y < |evs| && evs[y].time == ls[j].time && evs[y].action == Command(ls[j].text)
    ensures (x < y <==> LexBefore(ls[i].time, i, ls[j].time, j)) && (x == y <==> i == j)
  {
    var cs := Compile(ls);
    x := Placed(cs, evs, i, 0);
    y := Placed(cs, evs, j, 0);
    PlacedBefore(cs, evs, i, 0, j, 0, x, y);
    if x == y { SameEvent(cs, i, 0, j, 0); }
    if i == j { PlacedOnce(cs, evs, i, 0, x, y); }
  }

  /** And no other command runs. */
  lemma CommandsFrom(ls: seq<Line>, evs: seq<Ev>, x: int) returns (i: int)
    requires SortedTrace(Compile(ls), evs) && 0 <= x < |evs| && evs[x].action.Command?
    ensures CmdAt(ls, i) && evs[x] == EvAt(Compile(ls), i, 0) && evs[x].action == Command(ls[i].text)
  {
    var k;
    i, k := Origin(Compile(ls), evs, x);
    QueueFacts(ls[i], k);
  }
}
