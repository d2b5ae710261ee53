/** The actions the scheduler dispatches and the receive-window controller (src/action.c). */
module Action {
  import opened Machine
  import opened Worker
  import Nfqueue

  const ACTION_MAX_NFQUEUE: nat := 0xFF
  const NEVER: int := 0xFFFF_FFFF

  // ------------------------------------------------------- the controller

  /** What is remembered of a link: its window and its round-trip time. */
  datatype Link = Link(rw: int, rtt: int)

  /** `hist_param[3]`; entry 0 is never initialised. */
  datatype Links = Links(zero: Link, one: Link, two: Link) {
    function Get(i: int): Link { if i == 1 then one else if i == 2 then two else zero }

    function Put(i: int, l: Link): Links {
      if i == 1 then this.(one := l) else if i == 2 then this.(two := l) else this.(zero := l)
    }
  }

  predicate InRange(mark: int) { 0 <= mark < 3 }

  /** The value of a `tcp_ctx`. `threshold` and `pace` are the integer percentages of the trace;
      `worker` is the queue whose worker the sampler is linked to. */
  datatype Tcp = Tcp(fire: int, worker: Option<nat>, mark: int, interval: int, burstInterval: int,
                     threshold: int, pace: int, links: Links)

  datatype SchedArgs = SchedArgs(enable: bool, sampleInterval: int, threshold: int, pace: int, fire: int, mark: int,
                                 one: Link, two: Link)

  /** The controller: the window record of its worker, and its own state. */
  datatype Ctl = Ctl(v: WindowState, tcp: Tcp)

  function Change(c: Ctl, x: WinSetter): Ctl { c.(v := ApplyWin(c.v, x)) }

  /** `action_sol_update`: save the window of the link being left, restore that of the new one. */
  function DoSolution(c: Ctl, mark: int): Ctl {
    var tcp := if c.v.rwnd > 0
               then c.tcp.(links := c.tcp.links.Put(c.tcp.mark, c.tcp.links.Get(c.tcp.mark).(rw := c.v.rwnd)), mark := mark)
               else c.tcp;
    Change(Ctl(c.v, tcp), SolUpdate(tcp.links.Get(mark).rw))
  }

  /** `action_set_rwnd`: clamp the window, but never below 10. */
  function DoFreeze(c: Ctl, window: u16): Ctl { Change(c, SetRwnd(Max(window, 10))) }

  function Remembered(tcp: Tcp): int { tcp.links.Get(tcp.mark).rw }

  function DoBurst(c: Ctl, mode: int): Ctl {
    var d := Change(c, SetBurst(mode, Remembered(c.tcp)));
    if mode > 0 then d.(tcp := d.tcp.(interval := d.tcp.burstInterval))
    else if d.v.rwnd > Remembered(d.tcp)
    then d.(tcp := d.tcp.(links := d.tcp.links.Put(d.tcp.mark, d.tcp.links.Get(d.tcp.mark).(rw := d.v.rwnd))))
    else d
  }

  function DoAdapt(c: Ctl, mode: int): Ctl {
    var tcp := if mode > 0 then c.tcp.(interval := c.tcp.links.Get(c.tcp.mark).rtt) else c.tcp;
    Change(Ctl(c.v, tcp), SetAdapt(mode, Remembered(tcp)))
  }

  /** `action_init_tcp_sched`: link the sampler to the worker and load the link parameters. */
  function DoAttach(c: Ctl, q: nat, a: SchedArgs): Ctl {
    var links := Links(c.tcp.links.zero, a.one, a.two);
    var tcp := Tcp(a.fire, Some(q), a.mark, links.Get(a.mark).rtt, a.sampleInterval, a.threshold, a.pace, links);
    Change(Change(Ctl(c.v, tcp), InitTcpSched(a.enable)), SetRwnd(ToU16(links.Get(a.mark).rw)))
  }

  // ------------------------------------------------------------- sampling

  /** C's division, and its conversion of a double to an integer, truncate toward zero. */
  function Truncate(x: int, y: int): int
    requires y > 0
  {
    if x >= 0 then x / y else -(-x / y)
  }

  /** The window a burst sample estimates: the bytes received, scaled from the sampling interval to
      one round trip, as an unsigned 64-bit number in units of 1024 bytes. C's double arithmetic is
      taken as exact. */
  function BurstEstimate(rcvd: u64, rtt: int, interval: int): nat {
    if interval <= 0 then 0 else ToU64(Truncate(rcvd * rtt, interval)) / 1024
  }

  /** One adaptive step from window `w` on a scaled sample `cw`; percentages `t` and `p`. */
  function AdaptWindow(w: u16, cw: nat, t: int, p: int): u16 {
    if 100 * cw > t * w then ToU16(w * (100 + p) / 100)
    else if 10 * cw < 7 * w then ToU16(w * (400 - p) / 400)
    else w
  }

  function SampledWindow(c: Ctl): u16 {
    var v, tcp := c.v, c.tcp;
    if v.burst then
      var est := BurstEstimate(v.rcvd, tcp.links.Get(tcp.mark).rtt, tcp.interval);
      if est > v.rwnd then ToU16(est) else v.rwnd
    else if v.adapt && v.rwnd > 0 then AdaptWindow(v.rwnd, v.rcvd / 1024, tcp.threshold, tcp.pace)
    else v.rwnd
  }

  /** `tcp_schedule`. */
  function DoSample(c: Ctl): Ctl { Change(c, Sampled(SampledWindow(c))) }

  // ------------------------------------------------------- the whole system

  /** Uninitialised memory under a new queue and worker. */
  datatype Junk = Junk(status: Nfqueue.Status, worker: WorkerState)

  type DirectSetter = x: Setter | !x.SetWin? witness SetMark(0)

  datatype Action =
    | InitNfqueue(q: nat, junk: Junk)
    | StartNfqueue(q: nat)
    | StopNfqueue(q: nat)
    | TeardownNfqueue(q: nat)
    | Command(text: string)
    | Set(q: nat, setter: DirectSetter)
    | Solution(q: nat, mark: int)
    | Freeze(q: nat, window: u16)
    | Burst(q: nat, mode: int)
    | Adapt(q: nat, mode: int)
    | Attach(q: nat, args: SchedArgs)

  datatype Slot = Slot(status: Nfqueue.Status, w: WorkerState)

  /** The queue and worker slots, the controller, and whether the process has dereferenced a slot
      that is not there (or otherwise left defined behaviour); a crashed process does nothing. */
  datatype Sys = Sys(slots: map<nat, Slot>, tcp: Tcp, crashed: bool)

  function Crash(s: Sys): Sys { s.(crashed := true) }

  predicate Live(s: Sys, q: nat) { q in s.slots }

  function CtlOf(s: Sys, q: nat): Ctl
    requires Live(s, q)
  {
    Ctl(s.slots[q].w.win, s.tcp)
  }

  function WithWorker(s: Sys, q: nat, w: WorkerState): Sys
    requires Live(s, q)
  {
    s.(slots := s.slots[q := s.slots[q].(w := w)])
  }

  function WithStatus(s: Sys, q: nat, status: Nfqueue.Status): Sys
    requires Live(s, q)
  {
    s.(slots := s.slots[q := s.slots[q].(status := status)])
  }

  function WithCtl(s: Sys, q: nat, c: Ctl): Sys
    requires Live(s, q)
  {
    WithWorker(s, q, s.slots[q].w.(win := c.v)).(tcp := c.tcp)
  }

  /** Whether an action indexes the slots and the link table within bounds. */
  predicate Safe(s: Sys, a: Action) {
    match a
    case InitNfqueue(q, _) => q < ACTION_MAX_NFQUEUE
    case Command(_) => true
    case Solution(q, m) => Live(s, q) && InRange(m) && (s.slots[q].w.win.rwnd > 0 ==> InRange(s.tcp.mark))
    case Burst(q, _) => Live(s, q) && InRange(s.tcp.mark)
    case Adapt(q, _) => Live(s, q) && InRange(s.tcp.mark)
    case Attach(q, args) => Live(s, q) && InRange(args.mark)
    case _ => Live(s, a.q)
  }

  function Perform(s: Sys, a: Action): Sys {
    if s.crashed then s else
    if !Safe(s, a) then Crash(s) else
    match a
    case InitNfqueue(q, junk) => s.(slots := s.slots[q := Slot(junk.status, InitState(junk.worker))])
    case StartNfqueue(q) => WithStatus(s, q, Nfqueue.Running)
    case StopNfqueue(q) => WithStatus(s, q, Nfqueue.Stopped)
    case TeardownNfqueue(q) => s.(slots := s.slots - {q})
    case Command(_) => s
    case Set(q, x) => WithWorker(s, q, Apply(s.slots[q].w, x))
    case Solution(q, m) => WithCtl(s, q, DoSolution(CtlOf(s, q), m))
    case Freeze(q, r) => WithCtl(s, q, DoFreeze(CtlOf(s, q), r))
    case Burst(q, e) => WithCtl(s, q, DoBurst(CtlOf(s, q), e))
    case Adapt(q, e) => WithCtl(s, q, DoAdapt(CtlOf(s, q), e))
    case Attach(q, args) => WithCtl(s, q, DoAttach(CtlOf(s, q), q, args))
  }

  /** Whether the sampler finds its worker alive, and during a burst a positive interval. */
  predicate SafeTick(s: Sys) {
    && s.tcp.worker.Some? && Live(s, s.tcp.worker.value)
    && (s.slots[s.tcp.worker.value].w.win.burst ==> s.tcp.interval > 0 && InRange(s.tcp.mark))
  }

  function Tick(s: Sys): Sys {
    if s.crashed then s else
    if !SafeTick(s) then Crash(s) else
    var q := s.tcp.worker.value;
    WithCtl(s, q, DoSample(CtlOf(s, q)))
  }

  // ---------------------------------------------------- the packet threads

  /** What the packet thread of one queue may have changed in its worker. */
  datatype Traffic = Traffic(drop: DropState, reorder: ReorderState, rcvd: u64, lastAck: u32)

  function Disturb(w: WorkerState, t: Traffic): WorkerState {
    w.(drop := t.drop, reorder := t.reorder, win := w.win.(rcvd := t.rcvd, lastAck := t.lastAck))
  }

  /** Every change a packet thread can make is a disturbance, and every disturbance leaves the
      controller's side of the worker alone. */
  lemma DisturbIsTraffic(w: WorkerState, w': WorkerState)
    ensures SameControl(w, w') <==> exists t :: w' == Disturb(w, t)
  {
    if SameControl(w, w') {
      assert w' == Disturb(w, Traffic(w'.drop, w'.reorder, w'.win.rcvd, w'.win.lastAck));
    }
  }

  type Env = map<nat, Traffic>

  /** The effect of all packet threads between two actions of the scheduler thread. */
  function Interfere(s: Sys, env: Env): Sys {
    s.(slots := map q | q in s.slots ::
                  if q in env then s.slots[q].(w := Disturb(s.slots[q].w, env[q])) else s.slots[q])
  }
}
