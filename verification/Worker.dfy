/** The per-queue packet worker (src/worker.c): the four stages a packet passes, the setters the
    scheduler thread calls, and the mutable `WorkerCtx` that implements them. */
module Worker {
  import opened Machine

  const WORKER_MAX_REORDER_COUNT: nat := 1000

  /** What the worker looks at in a queued packet: the netfilter id, the payload length and the
      header fields at the offsets the code reads. */
  datatype Packet = Packet(id: u32, len: nat, ihl: u4, doff: u4, ack: u32, window: u16) {
    /** The length test of the dedup stage. */
    predicate DedupReadable() { 20 <= len && 4 * ihl + 20 <= len }

    /** The length test of the window stage, which also rejects a too short IP header. */
    predicate RwndReadable() { 20 <= 4 * ihl && DedupReadable() }

    predicate PayloadFree() { len <= 4 * ihl + 4 * doff }
  }

  /** A verdict handed to the kernel; `window` is the rewritten receive window, if any. */
  datatype Verdict = Drop(id: u32) | Accept(id: u32, mark: u32, window: Option<u16>)

  // The value of a `worker_ctx`, one record per lock. `held` is `reorder_ids[0..reorder_id_cur]`.

  datatype DropState = DropState(on: bool, count: int)

  datatype ReorderState = ReorderState(on: bool, count: int, offset: int, held: seq<u32>)

  datatype WindowState = WindowState(on: bool, rwnd: u16, burst: bool, adapt: bool, rcvd: u64, lastAck: u32)

  datatype WorkerState = WorkerState(mark: u32, drop: DropState, reorder: ReorderState, dedup: bool, win: WindowState)

  /** What a stage leaves behind: `handled` says that the callback returns here. */
  datatype Outcome<S> = Outcome(state: S, verdicts: seq<Verdict>, handled: bool)

  // ---------------------------------------------------------------- stages

  function HandleDrop(d: DropState, id: u32): Outcome<DropState> {
    if !d.on then Outcome(d, [], false)
    else
      var n := d.count - 1;
      Outcome(DropState(n > 0, n), if d.count > 0 then [Drop(id)] else [], d.count > 0)
  }

  /** The first half of the reorder stage: queue the packet, or let it pass, or neither. */
  function Admit(r: ReorderState, id: u32): ReorderState {
    if r.count > 0
    then r.(count := r.count - 1, held := r.held + [id])
    else r.(count := r.count - 1, offset := r.offset - 1)
  }

  function AdmitVerdicts(r: ReorderState, id: u32, mark: u32): seq<Verdict> {
    if r.count <= 0 && r.offset > 0 then [Accept(id, mark, None)] else []
  }

  /** The verdicts of the release loop, which runs from the last held id to the first. */
  function Release(held: seq<u32>, mark: u32): seq<Verdict> {
    seq(|held|, i requires 0 <= i < |held| => Accept(held[|held| - 1 - i], mark, None))
  }

  function EndEpisode(r: ReorderState): ReorderState { r.(on := false, held := []) }

  function HandleReorder(r: ReorderState, id: u32, mark: u32): Outcome<ReorderState> {
    if !r.on then Outcome(r, [], false)
    else
      var a := Admit(r, id);
      if a.offset <= 0
      then Outcome(EndEpisode(a), AdmitVerdicts(r, id, mark) + Release(a.held, mark), true)
      else Outcome(a, AdmitVerdicts(r, id, mark), true)
  }

  /** The dedup stage: whether the packet is dropped as a repeated, payload-free ACK. */
  predicate DropsDuplicate(dedup: bool, lastAck: u32, p: Packet) {
    dedup && p.DedupReadable() && p.ack == lastAck && p.PayloadFree()
  }

  /** The unsigned 32-bit difference of two sequence numbers. */
  function AckAdvance(from: u32, to: u32): u32 { (to - from) % TWO32 }

  function HandleRwnd(v: WindowState, p: Packet, mark: u32): Outcome<WindowState> {
    if !(v.on && p.RwndReadable()) then Outcome(v, [], false)
    else
      var v' := v.(rcvd := ToU64(v.rcvd + AckAdvance(v.lastAck, p.ack)), lastAck := p.ack);
      if v.rwnd < p.window
      then Outcome(v', [Accept(p.id, mark, Some(v.rwnd))], true)
      else Outcome(v', [], false)
  }

  /** The callback from the dedup stage on, when nothing interrupts it. */
  function PassOn(w: WorkerState, p: Packet): (WorkerState, seq<Verdict>) {
    if DropsDuplicate(w.dedup, w.win.lastAck, p) then (w, [Drop(p.id)]) else
    var d := HandleRwnd(w.win, p, w.mark);
    (w.(win := d.state), if d.handled then d.verdicts else [Accept(p.id, w.mark, None)])
  }

  /** The callback from the reorder stage on. */
  function Survive(w: WorkerState, p: Packet): (WorkerState, seq<Verdict>) {
    var b := HandleReorder(w.reorder, p.id, w.mark);
    if b.handled then (w.(reorder := b.state), b.verdicts) else PassOn(w, p)
  }

  /** `worker_callback` when nothing interrupts it. */
  function Callback(w: WorkerState, p: Packet): (WorkerState, seq<Verdict>) {
    var a := HandleDrop(w.drop, p.id);
    if a.handled then (w.(drop := a.state), a.verdicts) else
    Survive(w.(drop := a.state), p)
  }

  // --------------------------------------------------------------- setters

  /** The calls the scheduler thread makes on a worker. `Sampled` is the write-back of one
      periodic sample: a new window, and the byte counter consumed. */
  datatype Setter =
    | SetMark(mark: u32)
    | SetDrop(enable: bool, drops: int)
    | SetReorder(enable: bool, count: u16, offset: u16)
    | SetDedup(enable: bool)
    | SetWin(change: WinSetter)

  datatype WinSetter =
    | SolUpdate(rw: int)
    | SetRwnd(window: u16)
    | SetBurst(mode: int, rw: int)
    | SetAdapt(mode: int, rw: int)
    | InitTcpSched(enable: bool)
    | Sampled(window: u16)

  function ApplyDrop(d: DropState, enable: bool, drops: int): DropState {
    if enable then DropState(true, drops) else d.(on := false)
  }

  function ApplyReorder(r: ReorderState, enable: bool, count: u16, offset: u16): ReorderState {
    if enable then ReorderState(true, Min(count, WORKER_MAX_REORDER_COUNT), offset, []) else r.(on := false)
  }

  function ApplyWin(v: WindowState, x: WinSetter): WindowState {
    match x
    case SolUpdate(rw) => v.(adapt := false, burst := false, rwnd := ToU16(rw))
    case SetRwnd(r) => v.(rwnd := r)
    case SetBurst(e, rw) =>
      if e > 0 then v.(burst := true, adapt := false, rcvd := 0, rwnd := ToU16(rw)) else v.(burst := e != 0)
    case SetAdapt(e, rw) =>
      if e > 0 then v.(adapt := true, burst := false, rcvd := 0, rwnd := ToU16(rw)) else v.(adapt := e != 0)
    case InitTcpSched(on) => v.(on := on, adapt := true, rcvd := 0)
    case Sampled(r) => v.(rwnd := r, rcvd := 0)
  }

  function Apply(w: WorkerState, x: Setter): WorkerState {
    match x
    case SetMark(m) => w.(mark := m)
    case SetDrop(on, n) => w.(drop := ApplyDrop(w.drop, on, n))
    case SetReorder(on, c, o) => w.(reorder := ApplyReorder(w.reorder, on, c, o))
    case SetDedup(on) => w.(dedup := on)
    case SetWin(y) => w.(win := ApplyWin(w.win, y))
  }

  /** A new worker: `worker_init_ctx` writes the mark and the switches and leaves the rest as
      `malloc` returned it (`junk`); no packet is held yet. */
  function InitState(junk: WorkerState): WorkerState {
    WorkerState(0, junk.drop.(on := false), junk.reorder.(on := false, held := []), false,
                junk.win.(on := false, adapt := false, burst := false))
  }

  /** `w'` differs from `w` only where the packet thread writes: the drop and reorder stages,
      the byte counter and the last ACK. */
  predicate SameControl(w: WorkerState, w': WorkerState) {
    w' == w.(drop := w'.drop, reorder := w'.reorder, win := w.win.(rcvd := w'.win.rcvd, lastAck := w'.win.lastAck))
  }

  // ------------------------------------------------------ the mutable worker

  class WorkerCtx {
    var mark: u32
    var doDrop: bool
    var dropCount: int
    var doReorder: bool
    var reorderCount: int
    var reorderOffset: int
    var reorderIdCur: int
    const reorderIds: array<u32>
    var doDedup: bool
    var doRwnd: bool
    var tuneRwnd: u16
    var doBurst: bool
    var doAdapt: bool
    var dataRcvd: u64
    var lastAck: u32
    /** The verdicts given to the kernel so far. */
    var verdicts: seq<Verdict>
    /** Whether reordering was ever armed: until then `reorderIdCur` is uninitialised memory. */
    ghost var everArmed: bool

    /** While an episode runs, the ids held and still to be held fit the buffer. */
    ghost predicate Valid()
      reads this
    {
      && reorderIds.Length == WORKER_MAX_REORDER_COUNT
      && (everArmed ==> 0 <= reorderIdCur <= WORKER_MAX_REORDER_COUNT)
      && (doReorder ==> everArmed && reorderIdCur + Max(reorderCount, 0) <= WORKER_MAX_REORDER_COUNT)
    }

    ghost function DropView(): DropState
      reads this
    {
      DropState(doDrop, dropCount)
    }

    ghost function ReorderView(): ReorderState
      requires Valid()
      reads this, reorderIds
    {
      ReorderState(doReorder, reorderCount, reorderOffset, if everArmed then reorderIds[..reorderIdCur] else [])
    }

    ghost function WinView(): WindowState
      reads this
    {
      WindowState(doRwnd, tuneRwnd, doBurst, doAdapt, dataRcvd, lastAck)
    }

    ghost function View(): WorkerState
      requires Valid()
      reads this, reorderIds
    {
      WorkerState(mark, DropView(), ReorderView(), doDedup, WinView())
    }

    /** `junk` and `cur` stand for the uninitialised memory under the new worker. */
    constructor (junk: WorkerState, cur: int)
      ensures Valid() && fresh(reorderIds) && verdicts == []
      ensures View() == InitState(junk)
    {
      mark, doRwnd, doDedup, doReorder, doDrop, doAdapt, doBurst := 0, false, false, false, false, false, false;
      dropCount := junk.drop.count;
      reorderCount, reorderOffset, reorderIdCur := junk.reorder.count, junk.reorder.offset, cur;
      tuneRwnd, dataRcvd, lastAck := junk.win.rwnd, junk.win.rcvd, junk.win.lastAck;
      reorderIds := new u32[WORKER_MAX_REORDER_COUNT](_ => 0);
      verdicts := [];
      everArmed := false;
    }

    method HandleDropped(id: u32) returns (handled: bool)
      requires Valid()
      modifies `doDrop, `dropCount, `verdicts
      ensures Valid()
      ensures DropView() == HandleDrop(old(DropView()), id).state
      ensures verdicts == old(verdicts) + HandleDrop(old(DropView()), id).verdicts
      ensures handled == HandleDrop(old(DropView()), id).handled
    {
      handled := false;
      if doDrop {
        dropCount := dropCount - 1;
        if dropCount + 1 > 0 {
          verdicts := verdicts + [Drop(id)];
          handled := true;
        }
        if dropCount <= 0 {
          doDrop := false;
        }
      }
    }

    /** The release loop: the held ids leave from the last to the first. */
    method ReleaseHeld()
      requires Valid() && everArmed
      modifies `verdicts
      ensures verdicts == old(verdicts) + Release(ReorderView().held, mark)
    {
      ghost var all := Release(ReorderView().held, mark);
      var i := reorderIdCur - 1;
      while i >= 0
        invariant -1 <= i < reorderIdCur
        invariant verdicts == old(verdicts) + all[..reorderIdCur - 1 - i]
      {
        verdicts := verdicts + [Accept(reorderIds[i], mark, None)];
        i := i - 1;
      }
    }

    method AdmitPacket(id: u32)
      requires Valid() && doReorder
      modifies `reorderCount, `reorderOffset, `reorderIdCur, `verdicts, reorderIds
      ensures Valid()
      ensures ReorderView() == Admit(old(ReorderView()), id)
      ensures verdicts == old(verdicts) + AdmitVerdicts(old(ReorderView()), id, mark)
    {
      reorderCount := reorderCount - 1;
      if reorderCount + 1 > 0 {
        reorderIds[reorderIdCur] := id;
        reorderIdCur := reorderIdCur + 1;
      } else {
        reorderOffset := reorderOffset - 1;
        if reorderOffset + 1 > 0 {
          verdicts := verdicts + [Accept(id, mark, None)];
        }
      }
    }

    method HandleReordering(id: u32) returns (handled: bool)
      requires Valid()
      modifies `doReorder, `reorderCount, `reorderOffset, `reorderIdCur, `verdicts, reorderIds
      ensures Valid()
      ensures ReorderView() == HandleReorder(old(ReorderView()), id, mark).state
      ensures verdicts == old(verdicts) + HandleReorder(old(ReorderView()), id, mark).verdicts
      ensures handled == HandleReorder(old(ReorderView()), id, mark).handled
    {
      handled := false;
      if doReorder {
        ghost var r, v := ReorderView(), verdicts;
        AdmitPacket(id);
        if reorderOffset <= 0 {
          ReleaseHeld();
          assert verdicts == v + (AdmitVerdicts(r, id, mark) + Release(Admit(r, id).held, mark));
          doReorder := false;
          reorderIdCur := 0;
        }
        handled := true;
      }
    }

    method HandleDuplicate(p: Packet) returns (handled: bool)
      requires Valid()
      modifies `verdicts
      ensures handled == DropsDuplicate(doDedup, lastAck, p)
      ensures verdicts == old(verdicts) + if handled then [Drop(p.id)] else []
    {
      handled := false;
      if doDedup {
        if p.len < 20 || p.len < 4 * p.ihl + 20 {
          return;
        }
        if p.ack == lastAck && p.len <= 4 * p.ihl + 4 * p.doff {
          verdicts := verdicts + [Drop(p.id)];
          handled := true;
        }
      }
    }

    method HandleWindow(p: Packet) returns (handled: bool)
      requires Valid()
      modifies `dataRcvd, `lastAck, `verdicts
      ensures Valid()
      ensures WinView() == HandleRwnd(old(WinView()), p, mark).state
      ensures verdicts == old(verdicts) + HandleRwnd(old(WinView()), p, mark).verdicts
      ensures handled == HandleRwnd(old(WinView()), p, mark).handled
    {
      handled := false;
      if p.len < 20 || 4 * p.ihl < 20 || p.len < 4 * p.ihl + 20 {
        return;
      }
      if doRwnd {
        var recv := (p.ack - lastAck) % TWO32;
        dataRcvd := (dataRcvd + recv) % TWO64;
        lastAck := p.ack;
        if tuneRwnd < p.window {
          verdicts := verdicts + [Accept(p.id, mark, Some(tuneRwnd))];
          handled := true;
        }
      }
    }

    method ReceivePassed(p: Packet)
      requires Valid()
      modifies `dataRcvd, `lastAck, `verdicts
      ensures Valid()
      ensures View() == PassOn(old(View()), p).0
      ensures verdicts == old(verdicts) + PassOn(old(View()), p).1
    {
      var handled := HandleDuplicate(p);
      if handled { return; }
      assert verdicts == old(verdicts);
      handled := HandleWindow(p);
      if handled { return; }
      assert verdicts == old(verdicts);
      verdicts := verdicts + [Accept(p.id, mark, None)];
    }

    method ReceiveSurviving(p: Packet)
      requires Valid()
      modifies this, reorderIds
      ensures Valid()
      ensures View() == Survive(old(View()), p).0
      ensures verdicts == old(verdicts) + Survive(old(View()), p).1
    {
      var handled := HandleReordering(p.id);
      if handled { return; }
      assert verdicts == old(verdicts);
      ReceivePassed(p);
    }

    method Receive(p: Packet)
      requires Valid()
      modifies this, reorderIds
      ensures Valid()
      ensures View() == Callback(old(View()), p).0
      ensures verdicts == old(verdicts) + Callback(old(View()), p).1
    {
      var handled := HandleDropped(p.id);
      if handled { return; }
      assert verdicts == old(verdicts);
      ReceiveSurviving(p);
    }

    method WriteMark(m: u32)
      requires Valid()
      modifies `mark
      ensures Valid()
      ensures View() == Apply(old(View()), SetMark(m))
    {
      mark := m;
    }

    method WriteDrop(enable: bool, n: int)
      requires Valid()
      modifies `doDrop, `dropCount
      ensures Valid()
      ensures View() == Apply(old(View()), SetDrop(enable, n))
    {
      doDrop := enable;
      if enable {
        dropCount := n;
      }
    }

    method WriteReorder(enable: bool, reorderCount: u16, reorderOffset: u16)
      requires Valid()
      modifies `doReorder, `reorderCount, `reorderOffset, `reorderIdCur, `everArmed
      ensures Valid()
      ensures View() == Apply(old(View()), SetReorder(enable, reorderCount, reorderOffset))
    {
      var count := reorderCount;
      if count > WORKER_MAX_REORDER_COUNT {
        count := WORKER_MAX_REORDER_COUNT;
      }
      doReorder := enable;
      if enable {
        this.reorderCount := count;
        this.reorderOffset := reorderOffset;
        reorderIdCur := 0;
        everArmed := true;
      }
    }

    method WriteDedup(enable: bool)
      requires Valid()
      modifies `doDedup
      ensures Valid()
      ensures View() == Apply(old(View()), SetDedup(enable))
    {
      doDedup := enable;
    }

    method WriteSolution(rwnd: int)
      requires Valid()
      modifies `doAdapt, `doBurst, `tuneRwnd
      ensures Valid()
      ensures View() == Apply(old(View()), SetWin(SolUpdate(rwnd)))
    {
      doAdapt := false;
      doBurst := false;
      tuneRwnd := ToU16(rwnd);
    }

    method WriteWindow(window: u16)
      requires Valid()
      modifies `tuneRwnd
      ensures Valid()
      ensures View() == Apply(old(View()), SetWin(SetRwnd(window)))
    {
      tuneRwnd := window;
    }

    method WriteBurst(enable: int, rwnd: int)
      requires Valid()
      modifies `doBurst, `doAdapt, `dataRcvd, `tuneRwnd
      ensures Valid()
      ensures View() == Apply(old(View()), SetWin(SetBurst(enable, rwnd)))
    {
      doBurst := enable != 0;
      if enable > 0 {
        doAdapt := false;
        dataRcvd := 0;
        tuneRwnd := ToU16(rwnd);
      }
    }

    method WriteAdapt(enable: int, rwnd: int)
      requires Valid()
      modifies `doBurst, `doAdapt, `dataRcvd, `tuneRwnd
      ensures Valid()
      ensures View() == Apply(old(View()), SetWin(SetAdapt(enable, rwnd)))
    {
      doAdapt := enable != 0;
      if enable > 0 {
        doBurst := false;
        dataRcvd := 0;
        tuneRwnd := ToU16(rwnd);
      }
    }

    method WriteTcpSched(enable: bool)
      requires Valid()
      modifies `doRwnd, `doAdapt, `dataRcvd
      ensures Valid()
      ensures View() == Apply(old(View()), SetWin(InitTcpSched(enable)))
    {
      doRwnd := enable;
      doAdapt := true;
      dataRcvd := 0;
    }

    method WriteSample(window: u16)
      requires Valid()
      modifies `tuneRwnd, `dataRcvd
      ensures Valid()
      ensures View() == Apply(old(View()), SetWin(Sampled(window)))
    {
      tuneRwnd := window;
      dataRcvd := 0;
    }
  }
}
