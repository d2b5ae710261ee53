/** The parser of src/event.c, which appends the events of every line to the scheduler's table. */
module Parser {
  import opened Machine
  import opened Worker
  import opened Action
  import opened Scheduler
  import opened SchedulerContext
  import opened Layout
  import opened Trace

  /** The table after adding events one by one; those for which there is no room are ignored. */
  function AddAll(table: seq<Ev>, es: seq<Timed>): seq<Ev> {
    if es == [] then table else
    var e := es[|es| - 1];
    AddOne(AddAll(table, es[..|es| - 1]), e.time, e.action)
  }

  /** As many events of a table as there is room for. */
  function Clip(table: seq<Ev>): seq<Ev> { table[..Min(|table|, SCHEDULER_MAX_EVENT)] }

  lemma AddAllOne(table: seq<Ev>, es: seq<Timed>, e: Timed)
    ensures AddAll(table, es + [e]) == AddOne(AddAll(table, es), e.time, e.action)
  {}

  lemma ClipOne(t: seq<Ev>, time: nat, a: Action)
    ensures AddOne(Clip(t), time, a) == Clip(t + [Ev(time, a, |t|)])
  {}

  lemma {:induction false} AddAllIs(t: seq<Ev>, es: seq<Timed>)
    ensures AddAll(Clip(t), es) == Clip(t + Number(es, |t|))
  {
    if es == [] {
      assert t + Number(es, |t|) == t;
    } else {
      var n, e := |es| - 1, es[|es| - 1];
      AddAllIs(t, es[..n]);
      var u := t + Number(es[..n], |t|);
      ClipOne(u, e.time, e.action);
      assert t + Number(es, |t|) == u + [Ev(e.time, e.action, |u|)];
    }
  }

  /** Append one event; `es` are the events added to `base` so far. */
  method Add(s: SchedulerCtx, time: nat, a: Action, ghost base: seq<Ev>, ghost es: seq<Timed>) returns (ghost more: seq<Timed>)
    requires s.Valid() && s.Contents() == AddAll(base, es)
    modifies s, s.events
    ensures s.Valid() && more == es + [Timed(time, a)] && s.Contents() == AddAll(base, more)
  {
    more := es + [Timed(time, a)];
    AddAllOne(base, es, Timed(time, a));
    var ret := s.AddEvent(time, a);
  }

  /** Append an event on a condition of the line. */
  method AddWhen(s: SchedulerCtx, c: bool, time: nat, a: Action, ghost base: seq<Ev>, ghost es: seq<Timed>)
    returns (ghost more: seq<Timed>)
    requires s.Valid() && s.Contents() == AddAll(base, es)
    modifies s, s.events
    ensures s.Valid() && more == es + When(c, [Timed(time, a)]) && s.Contents() == AddAll(base, more)
  {
    more := es + When(c, [Timed(time, a)]);
    if c {
      ghost var _ := Add(s, time, a, base, es);
    } else {
      assert more == es;
    }
  }

  /** Append, on a condition, an event that switches something on and the one that switches it off. */
  method AddPairWhen(s: SchedulerCtx, c: bool, time: nat, a: Action, later: nat, b: Action, ghost base: seq<Ev>, ghost es: seq<Timed>)
    returns (ghost more: seq<Timed>)
    requires s.Valid() && s.Contents() == AddAll(base, es)
    modifies s, s.events
    ensures s.Valid() && more == es + When(c, [Timed(time, a), Timed(later, b)]) && s.Contents() == AddAll(base, more)
  {
    more := es + When(c, [Timed(time, a), Timed(later, b)]);
    if c {
      ghost var one := Add(s, time, a, base, es);
      one := Add(s, later, b, base, one);
      assert one == more;
    } else {
      assert more == es;
    }
  }

  method ParseInit(s: SchedulerCtx, l: Line)
    requires s.Valid() && l.Init?
    modifies s, s.events
    ensures s.Valid() && s.Contents() == AddAll(old(s.Contents()), CompileInit(l))
  {
    ghost var base, es := s.Contents(), [];
    es := Add(s, l.time, InitNfqueue(l.q, l.junk), base, es);
    es := Add(s, l.end, TeardownNfqueue(l.q), base, es);
    es := Add(s, l.time, StartNfqueue(l.q), base, es);
    es := AddWhen(s, l.mark > 0, l.time, Action.Set(l.q, SetMark(ToU32(l.mark))), base, es);
    assert es == CompileInit(l);
  }

  method ParseGap(s: SchedulerCtx, l: Line, ghost base: seq<Ev>) returns (ghost es: seq<Timed>)
    requires s.Valid() && l.Ho? && s.Contents() == base
    modifies s, s.events
    ensures s.Valid() && s.Contents() == AddAll(base, es)
    ensures es == [Timed(l.time, StopNfqueue(l.q)), Timed(l.time + l.gap, StartNfqueue(l.q)), Timed(l.time, Action.Set(l.q, SetMark(ToU32(l.mark))))]
  {
    es := Add(s, l.time, StopNfqueue(l.q), base, []);
    es := Add(s, l.time + l.gap, StartNfqueue(l.q), base, es);
    es := Add(s, l.time, Action.Set(l.q, SetMark(ToU32(l.mark))), base, es);
  }

  method ParseHo(s: SchedulerCtx, l: Line)
    requires s.Valid() && l.Ho?
    modifies s, s.events
    ensures s.Valid() && s.Contents() == AddAll(old(s.Contents()), CompileHo(l))
  {
    ghost var base := s.Contents();
    ghost var es := ParseGap(s, l, base);
    var drops := l.loss;
    if l.count > 0 {
      drops := l.count + 10;
    }
    es := AddWhen(s, drops > 0, l.time, Action.Set(l.q, SetDrop(true, drops)), base, es);
    es := AddWhen(s, l.count > 0, l.time, Action.Set(l.q, SetReorder(true, ToU16(l.count), ToU16(l.offset))), base, es);
  }

  /** The events of a SOL_HO up to the end of its freeze phase. */
  function OpeningEvents(l: Line): seq<Timed>
    requires l.SolHo?
  {
    [Timed(l.time, Solution(l.q, l.mark))]
    + When(l.freeze, [Timed(l.time, Freeze(l.q, ToU16(l.mark)))])
  }

  function DedupEvents(l: Line): seq<Timed>
    requires l.SolHo?
  {
    When(l.dedup, [Timed(ThawTime(l), Action.Set(l.q, SetDedup(true))), Timed(ThawTime(l) + l.smoothMs, Action.Set(l.q, SetDedup(false)))])
  }

  function BurstEvents(l: Line): seq<Timed>
    requires l.SolHo?
  {
    When(l.burstMs > 0, [Timed(ThawTime(l), Burst(l.q, 1)), Timed(SettleTime(l), Burst(l.q, 0))])
  }

  lemma SolHoParts(l: Line)
    requires l.SolHo?
    ensures CompileSolHo(l)
            == OpeningEvents(l) + DedupEvents(l) + BurstEvents(l) + When(l.adapt > 0, [Timed(SettleTime(l), Adapt(l.q, l.adapt))])
  {}

  method ParseOpening(s: SchedulerCtx, l: Line, ghost base: seq<Ev>) returns (ghost es: seq<Timed>)
    requires s.Valid() && l.SolHo? && s.Contents() == base
    modifies s, s.events
    ensures s.Valid() && es == OpeningEvents(l) && s.Contents() == AddAll(base, es)
  {
    es := Add(s, l.time, Solution(l.q, l.mark), base, []);
    es := AddWhen(s, l.freeze, l.time, Freeze(l.q, ToU16(l.mark)), base, es);
  }

  method ParseDedup(s: SchedulerCtx, l: Line, time: nat, ghost base: seq<Ev>, ghost es: seq<Timed>) returns (ghost more: seq<Timed>)
    requires s.Valid() && l.SolHo? && time == ThawTime(l) && s.Contents() == AddAll(base, es)
    modifies s, s.events
    ensures s.Valid() && more == es + DedupEvents(l) && s.Contents() == AddAll(base, more)
  {
    more := AddPairWhen(s, l.dedup, time, Action.Set(l.q, SetDedup(true)), time + l.smoothMs, Action.Set(l.q, SetDedup(false)), base, es);
  }

  method ParseBurst(s: SchedulerCtx, l: Line, time: nat, ghost base: seq<Ev>, ghost es: seq<Timed>) returns (ghost more: seq<Timed>)
    requires s.Valid() && l.SolHo? && time == ThawTime(l) && s.Contents() == AddAll(base, es)
    modifies s, s.events
    ensures s.Valid() && more == es + BurstEvents(l) && s.Contents() == AddAll(base, more)
  {
    more := AddPairWhen(s, l.burstMs > 0, time, Burst(l.q, 1), time + l.burstMs, Burst(l.q, 0), base, es);
  }

  method ParsePhases(s: SchedulerCtx, l: Line, ghost base: seq<Ev>, ghost es: seq<Timed>) returns (time: nat, ghost more: seq<Timed>)
    requires s.Valid() && l.SolHo? && s.Contents() == AddAll(base, es)
    modifies s, s.events
    ensures s.Valid() && more == es + DedupEvents(l) + BurstEvents(l) && s.Contents() == AddAll(base, more)
    ensures time == SettleTime(l)
  {
    time := l.time + l.freezeMs;
    more := ParseDedup(s, l, time, base, es);
    more := ParseBurst(s, l, time, base, more);
    time := time + l.burstMs;
  }

  method ParseHandleSolution(s: SchedulerCtx, l: Line)
    requires s.Valid() && l.SolHo?
    modifies s, s.events
    ensures s.Valid() && s.Contents() == AddAll(old(s.Contents()), CompileSolHo(l))
  {
    ghost var base := s.Contents();
    ghost var es := ParseOpening(s, l, base);
    var time;
    time, es := ParsePhases(s, l, base, es);
    es := AddWhen(s, l.adapt > 0, time, Adapt(l.q, l.adapt), base, es);
    SolHoParts(l);
  }

  /** `parse_event`: -1 exactly for a line whose type is unknown, which adds nothing. */
  method ParseEvent(s: SchedulerCtx, l: Line) returns (ret: int)
    requires s.Valid()
    modifies s, s.events
    ensures s.Valid() && s.Contents() == AddAll(old(s.Contents()), CompileLine(l))
    ensures ret == if l.Unknown? then -1 else 0
  {
    ghost var base, es := s.Contents(), [];
    ret := 0;
    match l
    case Init(_, _, _, _, _) => ParseInit(s, l);
    case Cmd(t, text) => es := Add(s, t, Command(text), base, es);
    case Ho(_, _, _, _, _, _, _) => ParseHo(s, l);
    case HandleDup(t, q, on) => es := Add(s, t, Action.Set(q, SetDedup(on)), base, es);
    case InitSched(t, q, args) => es := Add(s, t, Attach(q, args.(mark := 1)), base, es);
    case SolHo(_, _, _, _, _, _, _, _, _) => ParseHandleSolution(s, l);
    case Unknown(_) => ret := -1;
  }

  lemma CompilePrefix(ls: seq<Line>, i: nat)
    requires i < |ls|
    ensures Table(Compile(ls[..i + 1])) == Table(Compile(ls[..i])) + Number(CompileLine(ls[i]), |Table(Compile(ls[..i]))|)
  {
    var cs := Compile(ls[..i + 1]);
    assert cs[..i] == Compile(ls[..i]);
    assert cs[i] == CompileLine(ls[i]);
  }

  /** Reading a whole trace into an empty table leaves exactly the compiled table, as far as there
      is room. */
  method ReadTrace(s: SchedulerCtx, ls: seq<Line>)
    requires s.Valid() && s.Contents() == []
    modifies s, s.events
    ensures s.Valid() && s.Contents() == Clip(Table(Compile(ls)))
  {
    var i := 0;
    while i < |ls|
      invariant 0 <= i <= |ls| && s.Valid()
      invariant s.Contents() == Clip(Table(Compile(ls[..i])))
    {
      CompilePrefix(ls, i);
      AddAllIs(Table(Compile(ls[..i])), CompileLine(ls[i]));
      var ret := ParseEvent(s, ls[i]);
      i := i + 1;
    }
    assert ls[..|ls|] == ls;
  }
}
