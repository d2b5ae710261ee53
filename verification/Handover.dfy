/** From a trace line to the packets: what a HO line does to the packet stream. */
module Handover {
  import opened Machine
  import opened Worker
  import P = Pipeline
  import opened Reordering
  import opened Layout
  import opened Trace

  /** The setter calls, in order, that a list of timed events makes on its worker. */
  function SetterCalls(es: seq<Timed>): seq<P.Event> {
    if es == [] then [] else
    var a := es[|es| - 1].action;
    SetterCalls(es[..|es| - 1]) + if a.Set? then [P.Set(a.setter)] else []
  }

  lemma SetterCallsOne(es: seq<Timed>, e: Timed)
    ensures SetterCalls(es + [e]) == if e.action.Set? then SetterCalls(es) + [P.Set(e.action.setter)] else SetterCalls(es)
  {
    assert (es + [e])[..|es|] == es;
  }

  // The calls of a HO line.

  function MarkCall(l: Line): P.Event
    requires l.Ho?
  {
    P.Set(SetMark(ToU32(l.mark)))
  }

  function DropCall(l: Line): P.Event
    requires l.Ho?
  {
    P.Set(SetDrop(true, DropCount(l)))
  }

  function ReorderCall(l: Line): P.Event
    requires l.Ho?
  {
    P.Set(SetReorder(true, ToU16(l.count), ToU16(l.offset)))
  }

  lemma ThirdCalls(a: Timed, b: Timed, c: Timed)
    requires !a.action.Set? && !b.action.Set? && c.action.Set?
    ensures SetterCalls([a, b, c]) == [P.Set(c.action.setter)]
  {
    var none: seq<Timed> := [];
    var one := none + [a];
    var two := one + [b];
    SetterCallsOne(none, a);
    SetterCallsOne(one, b);
    SetterCallsOne(two, c);
    assert [a, b, c] == two + [c];
  }

  /** The stop and the start of the queue are no calls on its worker; the mark is. */
  lemma HoMark(l: Line)
    requires l.Ho?
    ensures SetterCalls(CompileHo(l)[..3]) == [MarkCall(l)]
  {
    var es := CompileHo(l);
    assert es[..3] == [es[0], es[1], es[2]];
    ThirdCalls(es[0], es[1], es[2]);
  }

  /** A HO line with a loss sets the mark and then arms the drop stage; one with reordering also arms
      the reorder stage, last. */
  lemma HoSetters(l: Line)
    requires l.Ho? && DropCount(l) > 0
    ensures SetterCalls(CompileLine(l))
            == [MarkCall(l), DropCall(l)] + if l.count > 0 then [ReorderCall(l)] else []
  {
    var es := CompileHo(l);
    var three, four := es[..3], es[..4];
    HoMark(l);
    SetterCallsOne(three, es[3]);
    assert three + [es[3]] == four && es[3].action.setter == DropCall(l).setter;
    if l.count > 0 {
      SetterCallsOne(four, es[4]);
      assert four + [es[4]] == es;
    } else {
      assert four == es;
    }
  }

  /** The count and the offset the worker gets: truncated to 16 bits, the count clamped. */
  function Count(l: Line): nat
    requires l.Ho?
  {
    Min(ToU16(l.count), WORKER_MAX_REORDER_COUNT)
  }

  function Offset(l: Line): nat
    requires l.Ho?
  {
    ToU16(l.offset)
  }

  /** A HO line arms an empty episode exactly when its positive count and its offset are both
      multiples of 65536: only then can it lose a packet. */
  lemma ArmsEmptyExactly(l: Line)
    requires l.Ho? && l.count > 0
    ensures (exists e :: e in SetterCalls(CompileLine(l)) && P.ArmsEmptyEpisode(e))
            <==> l.count % TWO16 == 0 && l.offset % TWO16 == 0
    ensures Count(l) == 0 && Offset(l) == 0 <==> l.count % TWO16 == 0 && l.offset % TWO16 == 0
  {
    HoSetters(l);
    assert ReorderCall(l) in SetterCalls(CompileLine(l));
    assert P.ArmsEmptyEpisode(ReorderCall(l)) <==> l.count % TWO16 == 0 && l.offset % TWO16 == 0;
  }

  lemma RunOne(s: P.Pipe, e: P.Event)
    ensures P.Run(s, [e]) == P.Next(s, e)
  {
    assert [e][..0] == [];
  }

  lemma RunFour(s: P.Pipe, x: P.Event, b: seq<P.Event>, y: P.Event, es: seq<P.Event>)
    ensures P.Run(s, [x] + b + [y] + es) == P.Run(P.Next(P.Run(P.Next(s, x), b), y), es)
  {
    RunConcat(s, [x] + b + [y], es);
    RunConcat(s, [x] + b, [y]);
    RunConcat(s, [x], b);
    RunOne(s, x);
    RunOne(P.Run(s, [x] + b), y);
  }

  /** A reordering HO line, from the trace to the verdicts: whatever packets come while its calls are
      made and after, and whatever happens to marks, windows and samples meanwhile. The drop stage
      drops the first `count + 10` packets that enter it. Of those that survive it, `first` passed the
      reorder stage before that was armed and left in order. Of the `rest`, the block of `offset`
      packets after the first `count` left first, then those `count` in reverse, then all others in
      order; with offset 0 they all left in order; and when both are 0 the first got no verdict. */
  lemma HandoverOnStream(l: Line, s: P.Pipe, b: seq<P.Event>, es: seq<P.Event>)
    returns (now: seq<u32>, dr: seq<u32>, through: seq<u32>, first: seq<u32>, rest: seq<u32>)
    requires l.Ho? && l.count > 0 && !s.w.dedup && !s.pc.Releasing? && Undisturbed(b) && Undisturbed(es)
    requires s.w.reorder.on ==> s.pc.Idle? && forall e :: e in b ==> !e.Recv?
    requires P.Run(s, [DropCall(l)] + b + [ReorderCall(l)] + es).pc.Idle?
    ensures var r, t := P.Run(P.Next(s, DropCall(l)), b), P.Run(s, [DropCall(l)] + b + [ReorderCall(l)] + es);
            && Cut(l.count + 10, Entering(s.pc) + now, dr, through)
            && Survived(s.pc) + through == first + rest
            && |first| == |P.Accepted(r.log)| - |P.Accepted(s.log)| + |Leaving(r.pc)|
            && (r.w.drop.on && Survived(s.pc) == [] ==> first == [])
            && Went(BookOf(s), BookOf(t), Count(l), Offset(l), now, dr, first, rest)
            && (t.lost != s.lost <==> l.count % TWO16 == 0 && l.offset % TWO16 == 0 && rest != [])
  {
    ArmsEmptyExactly(l);
    RunFour(s, DropCall(l), b, ReorderCall(l), es);
    now, dr, through, first, rest := StreamEffect(P.Next(s, DropCall(l)), b, es, l.count + 10, ToU16(l.count), ToU16(l.offset));
  }

  /** Made one right after the other, the calls of a reordering HO line arm the worker for exactly
      that handover, and abandon what an earlier episode still held. */
  lemma HoArms(l: Line, s: P.Pipe)
    requires l.Ho? && l.count > 0 && !s.w.dedup && !s.pc.Releasing?
    ensures var t := P.Run(s, SetterCalls(CompileLine(l)));
            && ArmedFor(t, l.count + 10, Count(l), Offset(l)) && BookOf(t) == BookOf(s) && t.pc == s.pc
            && t.abandoned == s.abandoned + s.w.reorder.held
  {
    HoSetters(l);
    var a := P.Next(s, MarkCall(l));
    assert SetterCalls(CompileLine(l)) == [MarkCall(l)] + ([DropCall(l)] + [] + [ReorderCall(l)] + []);
    RunConcat(s, [MarkCall(l)], [DropCall(l)] + [] + [ReorderCall(l)] + []);
    RunOne(s, MarkCall(l));
    RunFour(a, DropCall(l), [], ReorderCall(l), []);
  }

  /** A HO line without reordering drops the first `loss` packets that enter; the others leave in
      order. */
  lemma LossOnStream(l: Line, s: P.Pipe, es: seq<P.Event>) returns (now: seq<u32>, dr: seq<u32>, rest: seq<u32>)
    requires l.Ho? && l.count <= 0 && l.loss > 0
    requires !s.w.dedup && !s.w.reorder.on && !s.pc.Releasing? && Undisturbed(es)
    requires P.Run(s, [DropCall(l)] + es).pc.Idle?
    ensures Cut(l.loss, Entering(s.pc) + now, dr, rest)
    ensures BookOf(P.Run(s, [DropCall(l)] + es))
            == Book(P.Ids(s.received) + now, P.Dropped(s.log) + dr, P.Accepted(s.log) + (Survived(s.pc) + rest), s.lost)
  {
    RunConcat(s, [DropCall(l)], es);
    RunOne(s, DropCall(l));
    now, dr, rest := LossEffect(P.Next(s, DropCall(l)), es, l.loss);
  }

  /** Disarming both stages lets every packet through, in order, that is not held already. */
  lemma DisarmedPasses(s: P.Pipe, n: int, c: u16, o: u16, es: seq<P.Event>) returns (now: seq<u32>)
    requires !s.w.dedup && !s.pc.Releasing? && Undisturbed(es)
    requires P.Run(P.Next(P.Next(s, P.Set(SetDrop(false, n))), P.Set(SetReorder(false, c, o))), es).pc.Idle?
    ensures BookOf(P.Run(P.Next(P.Next(s, P.Set(SetDrop(false, n))), P.Set(SetReorder(false, c, o))), es))
            == Book(P.Ids(s.received) + now, P.Dropped(s.log), P.Accepted(s.log) + (Survived(s.pc) + (Entering(s.pc) + now)), s.lost)
  {
    var u := P.Next(P.Next(s, P.Set(SetDrop(false, n))), P.Set(SetReorder(false, c, o)));
    var dr, rest;
    now, dr, rest := LossEffect(u, es, 0);
    assert dr == [] && Entering(s.pc) + now == rest by { assert [] + rest == rest; }
    assert P.Dropped(s.log) + [] == P.Dropped(s.log);
  }

  // ------------------------------------------------- on the mutable worker

  function Steps(n: nat): (r: seq<P.Event>)
    ensures |r| == n && forall e :: e in r ==> e == P.Step
  {
    seq(n, _ => P.Step)
  }

  lemma {:induction false} StepsRun(s: P.Pipe, n: nat)
    ensures P.Run(s, Steps(n)) == P.StepN(s, n) && P.StepN(s, n).received == s.received
  {
    if n > 0 {
      StepsRun(s, n - 1);
      assert Steps(n)[..n - 1] == Steps(n - 1);
      P.StepNConcat(s, n - 1, 1);
      P.StepKeepsReceived(P.StepN(s, n - 1));
      var t := P.StepN(s, n - 1);
      assert P.StepN(t, 1) == P.StepN(P.StepPacket(t), 0) == P.StepPacket(t);
    }
  }

  /** A worker and its packet thread between two callbacks. */
  ghost predicate Mirrors(t: P.Pipe, w: WorkerState, verdicts: seq<Verdict>, ps: seq<Packet>) {
    t.pc == P.Idle && t.w == w && t.log == verdicts && t.received == ps
  }

  /** One undisturbed callback is a run of packet steps. */
  lemma CallbackIsRun(s: P.Pipe, es: seq<P.Event>, p: Packet, w: WorkerState, verdicts: seq<Verdict>, ps: seq<Packet>)
    returns (es': seq<P.Event>)
    requires Undisturbed(es) && Mirrors(P.Run(s, es), w, verdicts, ps)
    ensures Undisturbed(es') && Mirrors(P.Run(s, es'), Callback(w, p).0, verdicts + Callback(w, p).1, ps + [p])
  {
    var t := P.Run(s, es);
    P.CallbackRuns(t, p);
    var n: nat :| var u := P.StepN(P.Next(t, P.Recv(p)), n);
                  u.pc == P.Idle && u.w == Callback(t.w, p).0 && u.log == t.log + Callback(t.w, p).1;
    es' := es + [P.Recv(p)] + Steps(n);
    RunConcat(s, es + [P.Recv(p)], Steps(n));
    RunConcat(s, es, [P.Recv(p)]);
    RunOne(t, P.Recv(p));
    StepsRun(P.Next(t, P.Recv(p)), n);
  }

  method Arm(w: WorkerCtx, l: Line)
    requires w.Valid() && l.Ho? && l.count > 0
    modifies w, w.reorderIds
    ensures w.Valid() && w.verdicts == old(w.verdicts)
    ensures w.DropView() == DropState(true, l.count + 10)
    ensures w.ReorderView() == ReorderState(true, Count(l), Offset(l), []) && w.doDedup == old(w.doDedup)
  {
    w.WriteMark(ToU32(l.mark));
    w.WriteDrop(true, l.count + 10);
    w.WriteReorder(true, ToU16(l.count), ToU16(l.offset));
  }

  /** The same on the mutable worker: a reordering HO line, then a stream of packets. */
  method Replay(w: WorkerCtx, l: Line, ps: seq<Packet>)
    requires w.Valid() && l.Ho? && l.count > 0 && !w.doDedup
    modifies w, w.reorderIds
    ensures w.Valid()
    ensures var ids := P.Ids(ps);
            var k := Min(l.count + 10, |ids|);
            && P.Dropped(w.verdicts) == P.Dropped(old(w.verdicts)) + ids[..k]
            && P.Accepted(w.verdicts) == P.Accepted(old(w.verdicts)) + Reordered(Count(l), Offset(l), ids[k..])
  {
    Arm(w, l);
    ghost var s := P.Pipe(w.View(), P.Idle, [], w.verdicts, [], [], P.Episode(0, 0));
    ghost var es: seq<P.Event> := [];
    var i := 0;
    while i < |ps|
      invariant 0 <= i <= |ps| && w.Valid()
      invariant Undisturbed(es) && Mirrors(P.Run(s, es), w.View(), w.verdicts, ps[..i])
    {
      es := CallbackIsRun(s, es, ps[i], w.View(), w.verdicts, ps[..i]);
      assert ps[..i] + [ps[i]] == ps[..i + 1];
      w.Receive(ps[i]);
      i := i + 1;
    }
    assert ps[..|ps|] == ps;
    ghost var now, dr, rest := HandoverEffect(s, es, l.count + 10, Count(l), Offset(l));
    ReplayEffect(s, P.Run(s, es), l.count + 10, Count(l), Offset(l), now, dr, rest);
  }

  lemma ReplayEffect(s: P.Pipe, t: P.Pipe, d: nat, c: nat, o: nat, now: seq<u32>, dr: seq<u32>, rest: seq<u32>)
    requires Effect(s, t, d, c, o, now, dr, rest) && s.pc.Idle? && s.received == []
    ensures var ids := P.Ids(t.received);
            var k := Min(d, |ids|);
            P.Dropped(t.log) == P.Dropped(s.log) + ids[..k] && P.Accepted(t.log) == P.Accepted(s.log) + Reordered(c, o, ids[k..])
  {
    BookReplay(BookOf(s), BookOf(t), d, c, o, now, dr, rest);
  }

  lemma BookReplay(a: Book, b: Book, d: nat, c: nat, o: nat, now: seq<u32>, dr: seq<u32>, rest: seq<u32>)
    requires a.ids == [] && Went(a, b, c, o, now, dr, [], [] + rest) && Cut(d, [] + now, dr, rest)
    ensures var k := Min(d, |b.ids|);
            b.dropped == a.dropped + b.ids[..k] && b.accepted == a.accepted + Reordered(c, o, b.ids[k..])
  {
    assert [] + now == now && [] + rest == rest && a.accepted + [] == a.accepted;
    CutIs(d, now, dr, rest);
  }
}
