/** What the worker knows about acknowledgements: duplicate suppression and byte accounting. */
module Acks {
  import opened Machine
  import opened Worker
  import opened Pipeline

  /** Setters that leave window rewriting switched on. */
  predicate KeepsRewriting(e: Event) {
    e.Set? && e.setter.SetWin? && e.setter.change.InitTcpSched? ==> e.setter.change.enable
  }

  // ------------------------------------------------- duplicate suppression

  /** Rewriting and dedup on, drop and reorder idle. */
  predicate Deduping(w: WorkerState) { w.win.on && w.dedup && !w.drop.on && !w.reorder.on }

  predicate OnlyMarksAndWindows(es: seq<Event>) {
    forall e :: e in es ==> KeepsRewriting(e) && (e.Set? ==> e.setter.SetMark? || e.setter.SetWin?)
  }

  /** The ACK of the latest well-formed packet of `ps`, or `first` when there is none. */
  function PreviousAck(first: u32, ps: seq<Packet>): u32 {
    if ps == [] then first else
    var p := ps[|ps| - 1];
    if p.RwndReadable() then p.ack else PreviousAck(first, ps[..|ps| - 1])
  }

  /** The simple specification: drop a payload-free packet that repeats the previous ACK. */
  predicate Repeats(first: u32, before: seq<Packet>, p: Packet) {
    p.DedupReadable() && p.PayloadFree() && p.ack == PreviousAck(first, before)
  }

  predicate Fits(first: u32, before: seq<Packet>, p: Packet, v: Verdict) {
    v.id == p.id && (v.Drop? <==> Repeats(first, before, p))
  }

  ghost predicate AllFit(first: u32, ps: seq<Packet>, vs: seq<Verdict>) {
    |vs| <= |ps| && forall i :: 0 <= i < |vs| ==> Fits(first, ps[..i], ps[i], vs[i])
  }

  /** `t` is reached from `s` after receiving `ps` and giving the verdicts `vs`. */
  ghost predicate Judged(s: Pipe, t: Pipe, ps: seq<Packet>, vs: seq<Verdict>) {
    var first := s.w.win.lastAck;
    && t.received == s.received + ps && t.log == s.log + vs
    && Deduping(t.w) && !t.pc.Releasing?
    && AllFit(first, ps, vs)
    && if t.pc.Idle? then |vs| == |ps| && t.w.win.lastAck == PreviousAck(first, ps)
       else
         && |ps| == |vs| + 1 && ps[|vs|] == t.pc.p
         && (t.pc.AtRwnd? || t.pc.AtAccept? ==> !Repeats(first, ps[..|vs|], t.pc.p))
         && t.w.win.lastAck == PreviousAck(first, if t.pc.AtAccept? then ps else ps[..|vs|])
  }

  lemma FitReceived(first: u32, ps: seq<Packet>, vs: seq<Verdict>, p: Packet)
    requires AllFit(first, ps, vs)
    ensures AllFit(first, ps + [p], vs)
  {
    forall i | 0 <= i < |vs| ensures Fits(first, (ps + [p])[..i], (ps + [p])[i], vs[i]) {
      assert (ps + [p])[..i] == ps[..i];
    }
  }

  lemma JudgeVerdict(s: Pipe, t: Pipe, ps: seq<Packet>, vs: seq<Verdict>, v: Verdict)
    requires Judged(s, t, ps, vs) && !t.pc.Idle?
    requires StepPacket(t).pc.Idle? && StepPacket(t).log == t.log + [v]
    requires Fits(s.w.win.lastAck, ps[..|vs|], t.pc.p, v)
    requires StepPacket(t).w.win.lastAck == PreviousAck(s.w.win.lastAck, ps)
    ensures Judged(s, StepPacket(t), ps, vs + [v])
  {}

  lemma JudgeStep(s: Pipe, t: Pipe, ps: seq<Packet>, vs: seq<Verdict>) returns (vs': seq<Verdict>)
    requires Judged(s, t, ps, vs)
    ensures Judged(s, StepPacket(t), ps, vs')
  {
    vs' := vs;
    match t.pc
    case Idle =>
    case AtDrop(p) =>
      assert StepPacket(t).log == t.log;
    case AtReorder(p) =>
    case AtDedup(p) =>
      if DropsDuplicate(t.w.dedup, t.w.win.lastAck, p) {
        JudgeVerdict(s, t, ps, vs, Drop(p.id));
        vs' := vs + [Drop(p.id)];
      }
    case AtRwnd(p) =>
      if StepPacket(t).pc.Idle? {
        var v := Accept(p.id, t.w.mark, Some(t.w.win.rwnd));
        JudgeVerdict(s, t, ps, vs, v);
        vs' := vs + [v];
      } else {
        assert StepPacket(t).log == t.log;
      }
    case AtAccept(p) =>
      var v := Accept(p.id, t.w.mark, None);
      JudgeVerdict(s, t, ps, vs, v);
      vs' := vs + [v];
  }

  lemma JudgeReceive(s: Pipe, t: Pipe, ps: seq<Packet>, vs: seq<Verdict>, p: Packet)
    requires Judged(s, t, ps, vs) && t.pc.Idle?
    ensures Judged(s, Next(t, Recv(p)), ps + [p], vs)
  {
    FitReceived(s.w.win.lastAck, ps, vs, p);
    assert (ps + [p])[..|vs|] == ps;
    assert s.received + ps + [p] == s.received + (ps + [p]);
  }

  lemma JudgeSet(s: Pipe, t: Pipe, ps: seq<Packet>, vs: seq<Verdict>, x: Setter)
    requires Judged(s, t, ps, vs) && KeepsRewriting(Set(x)) && (x.SetMark? || x.SetWin?)
    ensures Judged(s, Next(t, Set(x)), ps, vs)
  {
    var u := Next(t, Set(x));
    assert u.pc == t.pc && u.log == t.log && u.received == t.received;
    assert Deduping(u.w) && u.w.win.lastAck == t.w.win.lastAck;
  }

  /** Dedup refines its specification: whatever happens to marks, windows and samples meanwhile,
      the verdicts come in arrival order, and a packet is dropped exactly when it carries no
      payload and repeats the ACK of the latest well-formed packet before it. */
  lemma {:induction false} DedupEffect(s: Pipe, es: seq<Event>) returns (ps: seq<Packet>, vs: seq<Verdict>)
    requires Deduping(s.w) && s.pc.Idle? && OnlyMarksAndWindows(es)
    ensures Judged(s, Run(s, es), ps, vs)
  {
    if es == [] {
      ps, vs := [], [];
      assert s.received + [] == s.received && s.log + [] == s.log;
    } else {
      var n := |es| - 1;
      ps, vs := DedupEffect(s, es[..n]);
      var t, e := Run(s, es[..n]), es[n];
      assert e in es;
      match e
      case Recv(p) =>
        if t.pc.Idle? {
          JudgeReceive(s, t, ps, vs, p);
          ps := ps + [p];
        }
      case Step => vs := JudgeStep(s, t, ps, vs);
      case Set(x) => JudgeSet(s, t, ps, vs, x);
    }
  }

  /** `pos` gives each packet its position in the byte stream that its 32-bit ACK stands for;
      positions never go back. */
  ghost predicate Positions(ps: seq<Packet>, pos: seq<nat>) {
    && |pos| == |ps|
    && (forall i :: 0 <= i < |ps| ==> pos[i] % TWO32 == ps[i].ack)
    && (forall i, j :: 0 <= i <= j < |ps| ==> pos[i] <= pos[j])
  }

  /** On a stream of well-formed packets whose ACKs never go back, the payload-free packets that
      get through acknowledge strictly more and more, so no run of duplicate ACKs survives. */
  lemma AcceptedAcksIncrease(first: u32, ps: seq<Packet>, vs: seq<Verdict>, pos: seq<nat>, i: nat, j: nat)
    requires AllFit(first, ps, vs) && Positions(ps, pos)
    requires forall k :: 0 <= k < |ps| ==> ps[k].RwndReadable()
    requires i < j < |vs| && vs[i].Accept? && vs[j].Accept? && ps[i].PayloadFree() && ps[j].PayloadFree()
    ensures pos[i] < pos[j]
  {}

  /** And nothing but duplicates is dropped, as long as no single advance spans 2^32 bytes. */
  lemma DroppedAcksRepeat(first: u32, ps: seq<Packet>, vs: seq<Verdict>, pos: seq<nat>, j: nat)
    requires AllFit(first, ps, vs) && Positions(ps, pos)
    requires forall k :: 0 <= k < |ps| ==> ps[k].RwndReadable()
    requires 0 < j < |vs| && vs[j].Drop? && pos[j] - pos[j - 1] < TWO32
    ensures pos[j] == pos[j - 1] && ps[j].PayloadFree()
  {}

  // -------------------------------------------------------- byte accounting

  /** Whether an event empties the byte counter: a sample consumes it, some setters reset it. */
  predicate Empties(e: Event, sample: bool) {
    && e.Set? && e.setter.SetWin?
    && var y := e.setter.change;
       if sample then y.Sampled?
       else y.InitTcpSched? || ((y.SetBurst? || y.SetAdapt?) && y.mode > 0)
  }

  /** The bytes taken out of the counter by samples, or by resets, over a run. */
  function Taken(s: Pipe, es: seq<Event>, sample: bool): nat {
    if es == [] then 0 else
    var n := |es| - 1;
    Taken(s, es[..n], sample) + if Empties(es[n], sample) then Run(s, es[..n]).w.win.rcvd else 0
  }

  /** The packet the window stage accounts for at this event, if any. */
  predicate Reaches(t: Pipe, e: Event) {
    e.Step? && t.pc.AtRwnd? && t.w.win.on && t.pc.p.RwndReadable()
  }

  /** The ACKs that reach the window stage over a run, whatever earlier stages removed. */
  function Reached(s: Pipe, es: seq<Event>): seq<u32> {
    if es == [] then [] else
    var n := |es| - 1;
    var t := Run(s, es[..n]);
    Reached(s, es[..n]) + if Reaches(t, es[n]) then [t.pc.p.ack] else []
  }

  function Last(first: u32, acks: seq<u32>): u32 { if acks == [] then first else acks[|acks| - 1] }

  /** The bytes acknowledged along `acks`, by 32-bit sequence arithmetic. */
  function Advance(first: u32, acks: seq<u32>): nat {
    if acks == [] then 0 else
    var n := |acks| - 1;
    Advance(first, acks[..n]) + AckAdvance(Last(first, acks[..n]), acks[n])
  }

  lemma AdvanceOne(first: u32, acks: seq<u32>, a: u32)
    ensures Advance(first, acks + [a]) == Advance(first, acks) + AckAdvance(Last(first, acks), a)
    ensures Last(first, acks + [a]) == a
  {}

  /** What is consumed, thrown away or still counted, against what was acknowledged. */
  ghost predicate Accounts(s: Pipe, es: seq<Event>) {
    var v, v', acks := s.w.win, Run(s, es).w.win, Reached(s, es);
    && v'.on && v'.lastAck == Last(v.lastAck, acks)
    && Taken(s, es, true) + Taken(s, es, false) + v'.rcvd == v.rcvd + Advance(v.lastAck, acks)
  }

  /** While rewriting stays on, the bytes consumed by samples, those thrown away by resets and
      those still in the counter add up to the advance of the ACKs that reached the stage. */
  lemma {:induction false} BytesAccounted(s: Pipe, es: seq<Event>)
    requires s.w.win.on && forall e :: e in es ==> KeepsRewriting(e)
    requires s.w.win.rcvd + Advance(s.w.win.lastAck, Reached(s, es)) < TWO64
    ensures Accounts(s, es)
  {
    if es != [] {
      var n := |es| - 1;
      AdvanceGrows(s, es);
      BytesAccounted(s, es[..n]);
      assert es[n] in es;
      AccountStep(s, es);
    }
  }

  lemma AdvanceGrows(s: Pipe, es: seq<Event>)
    requires es != []
    ensures Advance(s.w.win.lastAck, Reached(s, es[..|es| - 1])) <= Advance(s.w.win.lastAck, Reached(s, es))
  {
    var t, acks := Run(s, es[..|es| - 1]), Reached(s, es[..|es| - 1]);
    if Reaches(t, es[|es| - 1]) {
      AdvanceOne(s.w.win.lastAck, acks, t.pc.p.ack);
    } else {
      assert acks + [] == acks;
    }
  }

  lemma AccountStep(s: Pipe, es: seq<Event>)
    requires es != [] && Accounts(s, es[..|es| - 1]) && KeepsRewriting(es[|es| - 1])
    requires s.w.win.rcvd + Advance(s.w.win.lastAck, Reached(s, es)) < TWO64
    ensures Accounts(s, es)
  {
    var n, first := |es| - 1, s.w.win.lastAck;
    var t, e, acks := Run(s, es[..n]), es[n], Reached(s, es[..n]);
    assert Run(s, es) == Next(t, e);
    if Reaches(t, e) {
      AdvanceOne(first, acks, t.pc.p.ack);
      CountAck(t);
    } else {
      assert Reached(s, es) == acks + [] == acks;
      OtherEvents(t, e);
    }
  }

  lemma CountAck(t: Pipe)
    requires Reaches(t, Step) && t.w.win.rcvd + AckAdvance(t.w.win.lastAck, t.pc.p.ack) < TWO64
    ensures var v, v' := t.w.win, Next(t, Step).w.win;
            && v'.on && v'.lastAck == t.pc.p.ack
            && v'.rcvd == v.rcvd + AckAdvance(v.lastAck, t.pc.p.ack)
  {}

  lemma OtherEvents(t: Pipe, e: Event)
    requires t.w.win.on && KeepsRewriting(e) && !Reaches(t, e)
    ensures var v, v' := t.w.win, Next(t, e).w.win;
            && v'.on && v'.lastAck == v.lastAck
            && v'.rcvd == if Empties(e, true) || Empties(e, false) then 0 else v.rcvd
    ensures !(Empties(e, true) && Empties(e, false))
  {
    match e
    case Recv(_) =>
    case Step =>
    case Set(x) =>
  }

  function Before(start: nat, pos: seq<nat>, i: nat): nat
    requires i < |pos|
  {
    if i == 0 then start else pos[i - 1]
  }

  /** Positions that never go back and never jump by 2^32 or more. */
  ghost predicate Climbs(start: nat, pos: seq<nat>) {
    forall i :: 0 <= i < |pos| ==> Before(start, pos, i) <= pos[i] < Before(start, pos, i) + TWO32
  }

  /** Sequence arithmetic telescopes across wrap-around: the 32-bit advances add up to the
      distance between the first and the last position. */
  lemma {:induction false} AdvanceTelescopes(start: nat, first: u32, acks: seq<u32>, pos: seq<nat>)
    requires start % TWO32 == first && |pos| == |acks| && Climbs(start, pos)
    requires forall i :: 0 <= i < |acks| ==> pos[i] % TWO32 == acks[i]
    ensures Advance(first, acks) == (if acks == [] then start else pos[|acks| - 1]) - start
  {
    if acks != [] {
      var n := |acks| - 1;
      assert forall i :: 0 <= i < n ==> Before(start, pos[..n], i) == Before(start, pos, i);
      AdvanceTelescopes(start, first, acks[..n], pos[..n]);
      AdvanceOfPositions(Before(start, pos, n), pos[n]);
    }
  }

  lemma AdvanceOfPositions(a: nat, b: nat)
    requires a <= b < a + TWO32
    ensures AckAdvance(a % TWO32, b % TWO32) == b - a
  {}

  /** The two together: samples, resets and counter add up to the true number of bytes
      acknowledged between position `start` and the latest position. */
  lemma BytesTelescope(s: Pipe, es: seq<Event>, start: nat, pos: seq<nat>)
    requires s.w.win.on && forall e :: e in es ==> KeepsRewriting(e)
    requires s.w.win.rcvd == 0 && start % TWO32 == s.w.win.lastAck && |pos| == |Reached(s, es)|
    requires forall i :: 0 <= i < |pos| ==> pos[i] % TWO32 == Reached(s, es)[i]
    requires Climbs(start, pos)
    requires pos != [] ==> pos[|pos| - 1] - start < TWO64
    ensures Taken(s, es, true) + Taken(s, es, false) + Run(s, es).w.win.rcvd
            == (if pos == [] then start else pos[|pos| - 1]) - start
  {
    var v := s.w.win;
    assert Advance(v.lastAck, Reached(s, es)) == (if pos == [] then start else pos[|pos| - 1]) - start by {
      AdvanceTelescopes(start, v.lastAck, Reached(s, es), pos);
    }
    assert Accounts(s, es) by { BytesAccounted(s, es); }
  }
}
