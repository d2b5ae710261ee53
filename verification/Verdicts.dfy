/** What the verdicts carry: the mark and the window with which packets leave. */
module Verdicts {
  import opened Machine
  import opened Worker
  import opened Pipeline

  /** Every packet accepted carries `mark`. */
  ghost predicate Stamped(vs: seq<Verdict>, mark: u32) {
    forall v :: v in vs && v.Accept? ==> v.mark == mark
  }

  /** Every packet that leaves with a rewritten window is the one in the window stage, its own window
      was larger, and it gets the worker's. */
  ghost predicate Rewritten(vs: seq<Verdict>, s: Pipe) {
    forall v :: v in vs && v.Accept? && v.window.Some? ==>
      s.pc.AtRwnd? && v.id == s.pc.p.id && s.w.win.on && v.window.value == s.w.win.rwnd < s.pc.p.window
  }

  /** The verdict of the next step, if it gives one. */
  function StepVerdicts(s: Pipe, e: Event): seq<Verdict>
    requires |s.log| <= |Next(s, e).log|
  {
    Next(s, e).log[|s.log|..]
  }

  /** Wherever the packet thread is, a step gives at most one verdict; a packet it accepts, passed,
      released, rewritten or plain, carries the mark the worker holds at that step; and only the window
      stage rewrites, to the worker's window. */
  lemma StepStamps(s: Pipe, e: Event)
    ensures s.log <= Next(s, e).log && |StepVerdicts(s, e)| <= 1
    ensures Stamped(StepVerdicts(s, e), s.w.mark) && Rewritten(StepVerdicts(s, e), s)
  {
    if e.Step? {
      match s.pc
      case Idle =>
      case AtDrop(p) =>
      case AtReorder(p) =>
      case Releasing(_) =>
      case AtDedup(p) =>
      case AtRwnd(p) =>
      case AtAccept(p) =>
    }
  }

  /** The mark after the setter calls of a run. */
  function MarkAfter(mark: u32, es: seq<Event>): u32 {
    if es == [] then mark else
    var e := es[|es| - 1];
    if e.Set? && e.setter.SetMark? then e.setter.mark else MarkAfter(mark, es[..|es| - 1])
  }

  lemma {:induction false} MarkFollows(s: Pipe, es: seq<Event>)
    ensures Run(s, es).w.mark == MarkAfter(s.w.mark, es)
  {
    if es != [] {
      MarkFollows(s, es[..|es| - 1]);
      PacketFrame(Run(s, es[..|es| - 1]));
    }
  }

  /** Over every interleaving, every packet accepted carries the mark of the latest call that set it
      before the verdict: `n` is the event that gave verdict `i`. */
  lemma {:induction false} VerdictMarks(s: Pipe, es: seq<Event>, i: nat) returns (n: nat)
    requires |s.log| <= i < |Run(s, es).log|
    ensures n < |es| && |Run(s, es[..n]).log| <= i < |Run(s, es[..n + 1]).log|
    ensures var v := Run(s, es).log[i]; v.Accept? ==> v.mark == MarkAfter(s.w.mark, es[..n])
  {
    var k := |es| - 1;
    var t := Run(s, es[..k]);
    StepStamps(t, es[k]);
    if i < |t.log| {
      n := VerdictMarks(s, es[..k], i);
      assert es[..k][..n] == es[..n] && es[..k][..n + 1] == es[..n + 1];
    } else {
      n := k;
      assert es[..k + 1] == es;
      MarkFollows(s, es[..k]);
      NewVerdict(t, es[k], i);
    }
  }

  lemma NewVerdict(t: Pipe, e: Event, i: nat)
    requires |t.log| <= i < |Next(t, e).log|
    ensures var v := Next(t, e).log[i]; v.Accept? ==> v.mark == t.w.mark
  {
    StepStamps(t, e);
    assert Next(t, e).log[i] == StepVerdicts(t, e)[i - |t.log|];
  }

  /** As long as no call sets the mark, every packet accepted carries the worker's. */
  lemma {:induction false} MarkStays(s: Pipe, es: seq<Event>)
    requires forall e :: e in es && e.Set? ==> !e.setter.SetMark?
    ensures s.log <= Run(s, es).log && Stamped(Run(s, es).log[|s.log|..], s.w.mark)
    ensures Run(s, es).w.mark == s.w.mark
  {
    if es != [] {
      var k := |es| - 1;
      var t := Run(s, es[..k]);
      MarkStays(s, es[..k]);
      assert es[k] in es;
      StepStamps(t, es[k]);
      PacketFrame(t);
      assert Run(s, es).log[|s.log|..] == t.log[|s.log|..] + StepVerdicts(t, es[k]);
    }
  }

  lemma ReleaseStamps(held: seq<u32>, mark: u32)
    ensures Stamped(Release(held, mark), mark)
  {}

  /** The same for the mutable worker's undisturbed callback. */
  lemma CallbackStamps(w: WorkerState, p: Packet)
    ensures Stamped(Callback(w, p).1, w.mark)
  {
    ReleaseStamps(Admit(w.reorder, p.id).held, w.mark);
  }

  // ------------------------------------------------------------- fresh queues

  /** Every packet accepted unchanged, with the mark 0 of a new worker, in order. */
  function Plain(ps: seq<Packet>): (r: seq<Verdict>)
    ensures |r| == |ps|
  {
    seq(|ps|, i requires 0 <= i < |ps| => Accept(ps[i].id, 0, None))
  }

  predicate AllOff(w: WorkerState) {
    w.mark == 0 && !w.drop.on && !w.reorder.on && !w.dedup && !w.win.on && !w.win.burst && !w.win.adapt
  }

  /** All but the packet in flight have left plainly. */
  ghost predicate Passes(t: Pipe, ps: seq<Packet>) {
    && AllOff(t.w) && !t.pc.Releasing? && t.log == Plain(ps)
    && t.received == if t.pc.Idle? then ps else ps + [t.pc.p]
  }

  lemma PlainOne(ps: seq<Packet>, p: Packet)
    ensures Plain(ps + [p]) == Plain(ps) + [Accept(p.id, 0, None)]
  {}

  lemma PassesStep(t: Pipe, ps: seq<Packet>) returns (ps': seq<Packet>)
    requires Passes(t, ps)
    ensures Passes(StepPacket(t), ps')
  {
    ps' := ps;
    if t.pc.AtAccept? {
      PlainOne(ps, t.pc.p);
      ps' := ps + [t.pc.p];
    } else {
      assert StepPacket(t).log == t.log;
    }
  }

  lemma PassesReceive(t: Pipe, ps: seq<Packet>, p: Packet)
    requires Passes(t, ps)
    ensures Passes(Next(t, Recv(p)), ps)
  {}

  /** A new queue, before any call of the scheduler, accepts every packet unchanged and in order. */
  lemma {:induction false} FreshPasses(s: Pipe, es: seq<Event>) returns (ps: seq<Packet>)
    requires Initial(s) && forall e :: e in es ==> !e.Set?
    ensures Passes(Run(s, es), ps)
    ensures Run(s, es).pc.Idle? ==> Run(s, es).log == Plain(Run(s, es).received)
  {
    if es == [] {
      ps := [];
    } else {
      var n := |es| - 1;
      ps := FreshPasses(s, es[..n]);
      assert es[n] in es;
      var t := Run(s, es[..n]);
      if es[n].Step? { ps := PassesStep(t, ps); } else { PassesReceive(t, ps, es[n].p); }
    }
  }

  // ---------------------------------------------------------------- packets

  /** A TCP segment with `opts` words of IP options, `topts` words of TCP options and `n` bytes of
      payload. */
  function Segment(id: u32, opts: nat, topts: nat, n: nat, ack: u32, window: u16): Packet
    requires opts <= 10 && topts <= 10
  {
    Packet(id, 20 + 4 * opts + 20 + 4 * topts + n, 5 + opts, 5 + topts, ack, window)
  }

  /** What the length tests mean: every TCP segment passes both, and counts as payload-free exactly when
      it carries no payload; what passes one has the headers that are then read inside it; and what has
      no room for them, or for the window stage too short an IP header, is not read. */
  lemma LengthTests(id: u32, opts: nat, topts: nat, n: nat, ack: u32, window: u16, p: Packet)
    requires opts <= 10 && topts <= 10
    ensures var s := Segment(id, opts, topts, n, ack, window);
            s.RwndReadable() && s.DedupReadable() && (s.PayloadFree() <==> n == 0)
    ensures p.RwndReadable() || p.DedupReadable() ==> 4 * p.ihl + 20 <= p.len
    ensures p.len < 20 || p.ihl < 5 ==> !p.RwndReadable()
    ensures p.len < 20 ==> !p.DedupReadable()
  {}
}
