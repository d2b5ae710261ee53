/** `worker_callback` as steps, interleaved with the scheduler thread. Each locked region of
    src/worker.c is one step, except the release loop of the reorder stage: it keeps only the
    reorder lock, so between two releases every other setter may run. An event that cannot
    happen yet leaves the state alone, so that every sequence of events is a run. */
module Pipeline {
  import opened Machine
  import opened Worker

  /** Where the packet thread is; `Releasing(left)` has `left` held ids still to release. */
  datatype Pc =
    | Idle
    | AtDrop(p: Packet)
    | AtReorder(p: Packet)
    | Releasing(left: nat)
    | AtDedup(p: Packet)
    | AtRwnd(p: Packet)
    | AtAccept(p: Packet)

  /** The (clamped) arguments of the latest arming of the reorder stage. */
  datatype Episode = Episode(count: nat, offset: nat)

  /** A worker, its packet thread, and the history of the run: packets received, verdicts given,
      ids forgotten by re-arming, ids that got neither a verdict nor a place in the buffer. */
  datatype Pipe = Pipe(w: WorkerState, pc: Pc, received: seq<Packet>, log: seq<Verdict>,
                       abandoned: seq<u32>, lost: seq<u32>, armed: Episode)

  datatype Event = Recv(p: Packet) | Step | Set(setter: Setter)

  function StepPacket(s: Pipe): Pipe {
    match s.pc
    case Idle => s
    case AtDrop(p) =>
      var o := HandleDrop(s.w.drop, p.id);
      s.(w := s.w.(drop := o.state), log := s.log + o.verdicts, pc := if o.handled then Idle else AtReorder(p))
    case AtReorder(p) =>
      var r := s.w.reorder;
      if !r.on then s.(pc := AtDedup(p)) else
      var a := Admit(r, p.id);
      s.(w := s.w.(reorder := a),
         log := s.log + AdmitVerdicts(r, p.id, s.w.mark),
         lost := if r.count <= 0 && r.offset <= 0 then s.lost + [p.id] else s.lost,
         pc := if a.offset <= 0 then Releasing(|a.held|) else Idle)
    case Releasing(left) =>
      var r := s.w.reorder;
      if 0 < left <= |r.held|
      then s.(log := s.log + [Accept(r.held[left - 1], s.w.mark, None)], pc := Releasing(left - 1))
      else s.(w := s.w.(reorder := EndEpisode(r)), pc := Idle)
    case AtDedup(p) =>
      if DropsDuplicate(s.w.dedup, s.w.win.lastAck, p)
      then s.(log := s.log + [Drop(p.id)], pc := Idle)
      else s.(pc := AtRwnd(p))
    case AtRwnd(p) =>
      var o := HandleRwnd(s.w.win, p, s.w.mark);
      s.(w := s.w.(win := o.state), log := s.log + o.verdicts, pc := if o.handled then Idle else AtAccept(p))
    case AtAccept(p) =>
      s.(log := s.log + [Accept(p.id, s.w.mark, None)], pc := Idle)
  }

  predicate Arms(x: Setter) { x.SetReorder? && x.enable }

  function Next(s: Pipe, e: Event): Pipe {
    match e
    case Recv(p) => if s.pc.Idle? then s.(pc := AtDrop(p), received := s.received + [p]) else s
    case Step => StepPacket(s)
    case Set(x) =>
      if x.SetReorder? && s.pc.Releasing? then s else
      s.(w := Apply(s.w, x),
         abandoned := if Arms(x) then s.abandoned + s.w.reorder.held else s.abandoned,
         armed := if Arms(x) then Episode(Min(x.count, WORKER_MAX_REORDER_COUNT), x.offset) else s.armed)
  }

  function Run(s: Pipe, es: seq<Event>): Pipe {
    if es == [] then s else Next(Run(s, es[..|es| - 1]), es[|es| - 1])
  }

  /** A worker just created by `worker_init_ctx`, whatever its uninitialised fields hold. */
  predicate Initial(s: Pipe) {
    && s.w == InitState(s.w) && s.pc == Idle
    && s.received == [] && s.log == [] && s.abandoned == [] && s.lost == []
  }

  // ---------------------------------------------------------- conservation

  function Ids(ps: seq<Packet>): (r: seq<u32>)
    ensures |r| == |ps|
    ensures forall k :: 0 <= k < |ps| ==> r[k] == ps[k].id
  {
    seq(|ps|, i requires 0 <= i < |ps| => ps[i].id)
  }

  /** The ids accepted by a log of verdicts, in the order they left. */
  function Accepted(log: seq<Verdict>): seq<u32> {
    if log == [] then [] else
    var v := log[|log| - 1];
    Accepted(log[..|log| - 1]) + if v.Accept? then [v.id] else []
  }

  function Dropped(log: seq<Verdict>): seq<u32> {
    if log == [] then [] else
    var v := log[|log| - 1];
    Dropped(log[..|log| - 1]) + if v.Drop? then [v.id] else []
  }

  function InFlight(pc: Pc): seq<u32> {
    if pc.Idle? || pc.Releasing? then [] else [pc.p.id]
  }

  /** The ids held without a verdict. */
  function Held(s: Pipe): seq<u32> {
    var held := s.w.reorder.held;
    if s.pc.Releasing? && s.pc.left <= |held| then held[..s.pc.left] else held
  }

  /** How often `x` occurs in `s`. */
  function Count(s: seq<u32>, x: u32): nat {
    if s == [] then 0 else Count(s[..|s| - 1], x) + if s[|s| - 1] == x then 1 else 0
  }

  lemma CountOne(s: seq<u32>, y: u32, x: u32)
    ensures Count(s + [y], x) == Count(s, x) + if y == x then 1 else 0
  {}

  lemma CountSingle(y: u32, x: u32)
    ensures Count([y], x) == if y == x then 1 else 0
  {}

  lemma CountTake(s: seq<u32>, k: nat, x: u32)
    requires 0 < k <= |s|
    ensures Count(s[..k], x) == Count(s[..k - 1], x) + if s[k - 1] == x then 1 else 0
  {
    assert s[..k][..k - 1] == s[..k - 1];
  }

  lemma {:induction false} CountConcat(s: seq<u32>, t: seq<u32>, x: u32)
    ensures Count(s + t, x) == Count(s, x) + Count(t, x)
  {
    if t == [] {
      assert s + t == s;
    } else {
      var n := |t| - 1;
      CountConcat(s, t[..n], x);
      CountOne(s + t[..n], t[n], x);
      assert s + t[..n] + [t[n]] == s + t;
    }
  }

  /** Every id received is accounted for, as often as it was received. */
  ghost predicate Balanced(s: Pipe) {
    forall x :: Count(Ids(s.received), x) == Settled(s, x) + Pending(s, x)
  }

  /** How often an id has left the pipeline, by verdict or for good without one. */
  function Settled(s: Pipe, x: u32): nat {
    Count(Accepted(s.log), x) + Count(Dropped(s.log), x) + Count(s.abandoned, x) + Count(s.lost, x)
  }

  /** How often an id still waits for its verdict. */
  function Pending(s: Pipe, x: u32): nat {
    Count(InFlight(s.pc), x) + Count(Held(s), x)
  }

  lemma LogOne(log: seq<Verdict>, v: Verdict)
    ensures Accepted(log + [v]) == if v.Accept? then Accepted(log) + [v.id] else Accepted(log)
    ensures Dropped(log + [v]) == if v.Drop? then Dropped(log) + [v.id] else Dropped(log)
  {}

  lemma LogCount(log: seq<Verdict>, v: Verdict, x: u32)
    ensures Count(Accepted(log + [v]), x) == Count(Accepted(log), x) + if v.Accept? && v.id == x then 1 else 0
    ensures Count(Dropped(log + [v]), x) == Count(Dropped(log), x) + if v.Drop? && v.id == x then 1 else 0
  {
    LogOne(log, v);
    CountOne(Accepted(log), v.id, x);
    CountOne(Dropped(log), v.id, x);
  }

  /** The exact shape of a reordering episode, at every point of every run. */
  ghost predicate EpisodeOk(s: Pipe) {
    var r, a := s.w.reorder, s.armed;
    && |r.held| <= WORKER_MAX_REORDER_COUNT
    && (r.on ==> a.count <= WORKER_MAX_REORDER_COUNT)
    && (s.pc.Releasing? ==> s.pc.left <= |r.held| && r.on && Finished(r, a))
    && (r.on && !s.pc.Releasing? ==> Filling(r, a) || Passing(r, a))
  }

  /** Packets are still being queued. */
  ghost predicate Filling(r: ReorderState, a: Episode) {
    0 <= r.count && |r.held| == a.count - r.count && r.offset == a.offset && (a.offset == 0 ==> r.held == [])
  }

  /** The buffer is full and `-count` packets have passed it. */
  ghost predicate Passing(r: ReorderState, a: Episode) {
    r.count < 0 && |r.held| == a.count && r.offset == a.offset + r.count && r.offset > 0
  }

  /** The packet that ends the episode has been admitted. */
  ghost predicate Finished(r: ReorderState, a: Episode) {
    if a.offset > 0 then |r.held| == a.count && r.count + a.offset == 0 && r.offset == 0
    else if a.count > 0 then |r.held| == 1 && r.count == a.count - 1 && r.offset == 0
    else r.held == [] && r.count == -1 && r.offset == -1
  }

  lemma AdmitKeepsEpisode(s: Pipe)
    requires EpisodeOk(s) && s.pc.AtReorder? && s.w.reorder.on
    ensures EpisodeOk(StepPacket(s))
  {}

  lemma StepKeepsEpisode(s: Pipe, e: Event)
    requires EpisodeOk(s)
    ensures EpisodeOk(Next(s, e))
  {
    match e
    case Recv(_) =>
    case Set(x) =>
    case Step =>
      if s.pc.AtReorder? && s.w.reorder.on {
        AdmitKeepsEpisode(s);
      }
  }

  lemma AdmitKeepsBalance(s: Pipe, x: u32)
    requires s.pc.AtReorder? && s.w.reorder.on
    ensures var t := StepPacket(s); Settled(t, x) + Pending(t, x) == Settled(s, x) + Pending(s, x)
  {
    var id, r, t := s.pc.p.id, s.w.reorder, StepPacket(s);
    CountSingle(id, x);
    assert Held(t) == t.w.reorder.held && InFlight(t.pc) == [] && InFlight(s.pc) == [id] && Held(s) == r.held;
    if r.count > 0 {
      CountOne(r.held, id, x);
      assert t.log == s.log && t.lost == s.lost;
    } else if r.offset > 0 {
      LogCount(s.log, Accept(id, s.w.mark, None), x);
      assert t.w.reorder.held == r.held && t.lost == s.lost;
    } else {
      CountOne(s.lost, id, x);
      assert t.log == s.log && t.w.reorder.held == r.held;
    }
  }

  lemma ReleaseKeepsBalance(s: Pipe, x: u32)
    requires EpisodeOk(s) && s.pc.Releasing?
    ensures var t := StepPacket(s); Settled(t, x) + Pending(t, x) == Settled(s, x) + Pending(s, x)
  {
    var k, h, t := s.pc.left, s.w.reorder.held, StepPacket(s);
    assert InFlight(t.pc) == InFlight(s.pc) == [] && Held(s) == h[..k];
    if k > 0 {
      LogCount(s.log, Accept(h[k - 1], s.w.mark, None), x);
      CountTake(h, k, x);
      assert Held(t) == h[..k - 1];
    } else {
      assert Held(t) == [];
    }
  }

  /** The stages other than reordering move the packet on, or give it its one verdict. */
  lemma StageKeepsBalance(s: Pipe, t: Pipe, vs: seq<Verdict>, x: u32)
    requires !s.pc.Idle? && !s.pc.Releasing? && !t.pc.Releasing?
    requires if t.pc.Idle? then |vs| == 1 && vs[0].id == s.pc.p.id else vs == [] && t.pc.p == s.pc.p
    requires t.log == s.log + vs && t.w.reorder == s.w.reorder
    requires t.abandoned == s.abandoned && t.lost == s.lost
    ensures Settled(t, x) + Pending(t, x) == Settled(s, x) + Pending(s, x)
  {
    if t.pc.Idle? {
      assert vs == [vs[0]];
      LogCount(s.log, vs[0], x);
      CountSingle(s.pc.p.id, x);
    } else {
      assert t.log == s.log;
    }
  }

  lemma PacketKeepsBalance(s: Pipe, x: u32)
    requires EpisodeOk(s)
    ensures var t := StepPacket(s); Settled(t, x) + Pending(t, x) == Settled(s, x) + Pending(s, x)
  {
    var t := StepPacket(s);
    match s.pc
    case Idle =>
    case AtDrop(p) => StageKeepsBalance(s, t, HandleDrop(s.w.drop, p.id).verdicts, x);
    case AtReorder(p) =>
      if s.w.reorder.on { AdmitKeepsBalance(s, x); }
    case Releasing(_) => ReleaseKeepsBalance(s, x);
    case AtDedup(p) => StageKeepsBalance(s, t, if t.pc.Idle? then [Drop(p.id)] else [], x);
    case AtRwnd(p) => StageKeepsBalance(s, t, HandleRwnd(s.w.win, p, s.w.mark).verdicts, x);
    case AtAccept(p) => StageKeepsBalance(s, t, [Accept(p.id, s.w.mark, None)], x);
  }

  lemma SetKeepsBalance(s: Pipe, y: Setter, x: u32)
    ensures var t := Next(s, Set(y)); Settled(t, x) + Pending(t, x) == Settled(s, x) + Pending(s, x)
  {
    var t := Next(s, Set(y));
    assert t.log == s.log && t.lost == s.lost && t.pc == s.pc;
    if Arms(y) && !s.pc.Releasing? {
      assert Held(t) == [] && Held(s) == s.w.reorder.held;
      CountConcat(s.abandoned, s.w.reorder.held, x);
    } else {
      assert t.w.reorder.held == s.w.reorder.held && t.abandoned == s.abandoned;
    }
  }

  lemma ReceiveKeepsBalance(s: Pipe, p: Packet, x: u32)
    requires s.pc.Idle?
    ensures var t := Next(s, Recv(p));
            Count(Ids(t.received), x) - Count(Ids(s.received), x)
            == Settled(t, x) + Pending(t, x) - Settled(s, x) - Pending(s, x)
  {
    assert Ids(s.received + [p]) == Ids(s.received) + [p.id];
    CountOne(Ids(s.received), p.id, x);
    CountSingle(p.id, x);
  }

  lemma StepKeepsReceived(s: Pipe)
    ensures StepPacket(s).received == s.received
  {}

  lemma StepKeepsBalanceOf(s: Pipe, e: Event, x: u32)
    requires EpisodeOk(s) && Count(Ids(s.received), x) == Settled(s, x) + Pending(s, x)
    ensures var t := Next(s, e); Count(Ids(t.received), x) == Settled(t, x) + Pending(t, x)
  {
    var t := Next(s, e);
    if e.Recv? {
      if s.pc.Idle? { ReceiveKeepsBalance(s, e.p, x); }
    } else {
      assert t.received == s.received && Settled(t, x) + Pending(t, x) == Settled(s, x) + Pending(s, x) by {
        if e.Step? {
          PacketKeepsBalance(s, x);
          StepKeepsReceived(s);
        } else {
          SetKeepsBalance(s, e.setter, x);
        }
      }
    }
  }

  lemma StepKeepsBalance(s: Pipe, e: Event)
    requires Balanced(s) && EpisodeOk(s)
    ensures Balanced(Next(s, e))
  {
    forall x ensures Count(Ids(Next(s, e).received), x) == Settled(Next(s, e), x) + Pending(Next(s, e), x) {
      StepKeepsBalanceOf(s, e, x);
    }
  }

  /** Over every interleaving, every packet received is accepted, dropped, in flight, held,
      abandoned or lost, exactly once. */
  lemma {:induction false} Conservation(s: Pipe, es: seq<Event>)
    requires Initial(s)
    ensures Balanced(Run(s, es)) && EpisodeOk(Run(s, es))
  {
    if es == [] {
    } else {
      Conservation(s, es[..|es| - 1]);
      var t := Run(s, es[..|es| - 1]);
      StepKeepsEpisode(t, es[|es| - 1]);
      StepKeepsBalance(t, es[|es| - 1]);
    }
  }

  ghost predicate Distinct(s: seq<u32>) {
    forall i, j :: 0 <= i < j < |s| ==> s[i] != s[j]
  }

  lemma {:induction false} CountOfDistinct(s: seq<u32>, x: u32)
    requires Distinct(s)
    ensures Count(s, x) <= 1
    ensures x !in s ==> Count(s, x) == 0
  {
    if s != [] {
      var t := s[..|s| - 1];
      CountOfDistinct(t, x);
      assert s[|s| - 1] !in t;
    }
  }

  /** When the kernel gives every packet its own id, no id is both or twice settled, and none is
      settled while it is still pending: in particular no packet gets two verdicts. */
  lemma OneVerdict(s: Pipe, es: seq<Event>, x: u32)
    requires Initial(s)
    requires Distinct(Ids(Run(s, es).received))
    ensures var t := Run(s, es);
            Settled(t, x) + Pending(t, x) == if x in Ids(t.received) then 1 else 0
  {
    var t := Run(s, es);
    Conservation(s, es);
    CountOfDistinct(Ids(t.received), x);
    CountOfMember(Ids(t.received), x);
    assert Count(Ids(t.received), x) == Settled(t, x) + Pending(t, x);
  }

  lemma {:induction false} CountOfMember(s: seq<u32>, x: u32)
    ensures x in s ==> Count(s, x) > 0
  {
    if s != [] {
      CountOfMember(s[..|s| - 1], x);
    }
  }

  /** A held packet is abandoned exactly when reordering is re-armed over it. */
  lemma AbandonsOnlyByRearming(s: Pipe, e: Event)
    ensures Next(s, e).abandoned != s.abandoned
            <==> e.Set? && Arms(e.setter) && !s.pc.Releasing? && s.w.reorder.held != []
  {}

  /** A packet is lost exactly when it meets an episode armed with count and offset both 0. */
  lemma LosesOnlyToEmptyEpisode(s: Pipe, e: Event)
    requires EpisodeOk(s)
    ensures Next(s, e).lost != s.lost
            <==> e.Step? && s.pc.AtReorder? && s.w.reorder.on && s.armed == Episode(0, 0)
  {}

  /** The packet thread never touches what the controller owns: the mark, the switches of the
      dedup and window stages, the window. It never starts an episode either. */
  lemma PacketFrame(s: Pipe)
    ensures SameControl(s.w, StepPacket(s).w)
    ensures StepPacket(s).armed == s.armed && (StepPacket(s).w.reorder.on ==> s.w.reorder.on)
  {
    match s.pc
    case Idle =>
    case AtDrop(p) =>
    case AtReorder(p) =>
    case Releasing(_) =>
    case AtDedup(p) =>
    case AtRwnd(p) =>
    case AtAccept(p) =>
  }

  predicate ArmsEmptyEpisode(e: Event) {
    e.Set? && Arms(e.setter) && e.setter.count == 0 && e.setter.offset == 0
  }

  lemma NoEmptyEpisodeStep(s: Pipe, e: Event)
    requires s.w.reorder.on ==> s.armed != Episode(0, 0)
    requires !ArmsEmptyEpisode(e)
    ensures Next(s, e).w.reorder.on ==> Next(s, e).armed != Episode(0, 0)
  {}

  /** Without such an arming, every packet received is accepted, dropped, in flight, held or
      abandoned, over every interleaving. */
  lemma {:induction false} NothingLost(s: Pipe, es: seq<Event>)
    requires Initial(s)
    requires forall e :: e in es ==> !ArmsEmptyEpisode(e)
    ensures Run(s, es).lost == []
    ensures Run(s, es).w.reorder.on ==> Run(s, es).armed != Episode(0, 0)
  {
    if es != [] {
      var t, e := Run(s, es[..|es| - 1]), es[|es| - 1];
      NothingLost(s, es[..|es| - 1]);
      Conservation(s, es[..|es| - 1]);
      LosesOnlyToEmptyEpisode(t, e);
      NoEmptyEpisodeStep(t, e);
    }
  }

  /** The converse: an armed empty episode loses the next packet that is not dropped. */
  lemma EmptyEpisodeLoses(s: Pipe, p: Packet)
    requires s.pc.Idle? && !s.w.drop.on
    ensures Run(s, [Set(SetReorder(true, 0, 0)), Recv(p), Step, Step]).lost == s.lost + [p.id]
  {
    var es := [Set(SetReorder(true, 0, 0)), Recv(p), Step, Step];
    var a := Next(s, es[0]);
    var b := Next(a, es[1]);
    var c := Next(b, es[2]);
    assert es[..3][..2][..1][..0] == [];
    assert es[..3][..2][..1] == [es[0]] && es[..3][..2] == es[..2] && es[..2][1] == es[1];
    assert Run(s, es[..3][..2][..1]) == a;
    assert Run(s, es[..3][..2]) == b;
    assert Run(s, es[..3]) == c;
    assert c.pc == AtReorder(p);
  }

  /** Buffer safety: in every reachable state the ids held and still to be queued fit the array,
      the next write is in bounds, and the counters never fall below minus the armed offset
      (below -1 for the empty episode). */
  lemma BufferSafe(s: Pipe, es: seq<Event>)
    requires Initial(s)
    ensures var t := Run(s, es); var r := t.w.reorder;
            && |r.held| <= WORKER_MAX_REORDER_COUNT
            && (r.on ==>
                  && |r.held| + Max(r.count, 0) <= WORKER_MAX_REORDER_COUNT
                  && (r.count > 0 ==> |r.held| < WORKER_MAX_REORDER_COUNT)
                  && r.count >= -Max(t.armed.offset, if t.armed.count == 0 then 1 else 0)
                  && r.offset >= if t.armed == Episode(0, 0) then -1 else 0)
  {
    Conservation(s, es);
    var t := Run(s, es);
    if t.w.reorder.on {
      assert Filling(t.w.reorder, t.armed) || Passing(t.w.reorder, t.armed) || Finished(t.w.reorder, t.armed);
    }
  }

  // ------------------------------------------- the callback, uninterrupted

  function StepN(s: Pipe, n: nat): Pipe
    decreases n
  {
    if n == 0 then s else StepN(StepPacket(s), n - 1)
  }

  lemma {:induction false} StepNConcat(s: Pipe, m: nat, n: nat)
    ensures StepN(s, m + n) == StepN(StepN(s, m), n)
    decreases m
  {
    if m > 0 {
      StepNConcat(StepPacket(s), m - 1, n);
    }
  }

  lemma ReleaseTake(h: seq<u32>, k: nat, mark: u32)
    requires 0 < k <= |h|
    ensures Release(h[..k], mark) == [Accept(h[k - 1], mark, None)] + Release(h[..k - 1], mark)
  {}

  /** Left alone, the release loop gives the held ids their verdicts in reverse order. */
  lemma {:induction false} ReleaseRuns(s: Pipe)
    requires s.pc.Releasing? && s.pc.left <= |s.w.reorder.held|
    ensures StepN(s, s.pc.left)
            == s.(pc := Releasing(0), log := s.log + Release(s.w.reorder.held[..s.pc.left], s.w.mark))
    decreases s.pc.left
  {
    var k, h := s.pc.left, s.w.reorder.held;
    if k == 0 {
      assert s.log + [] == s.log;
    } else {
      var v := Accept(h[k - 1], s.w.mark, None);
      var t := s.(pc := Releasing(k - 1), log := s.log + [v]);
      assert t == StepPacket(s);
      ReleaseRuns(t);
      ReleaseTake(h, k, s.w.mark);
      assert s.log + [v] + Release(h[..k - 1], s.w.mark) == s.log + ([v] + Release(h[..k - 1], s.w.mark));
    }
  }

  lemma ReorderRuns(s: Pipe)
    requires s.pc.AtReorder? && s.w.reorder.on
    ensures var a := Admit(s.w.reorder, s.pc.p.id);
            var o, t := HandleReorder(s.w.reorder, s.pc.p.id, s.w.mark), StepN(s, if a.offset <= 0 then |a.held| + 2 else 1);
            t.pc == Idle && t.w == s.w.(reorder := o.state) && t.log == s.log + o.verdicts
  {
    var id, r, mark := s.pc.p.id, s.w.reorder, s.w.mark;
    var a, t, vs := Admit(r, id), StepPacket(s), AdmitVerdicts(r, id, mark);
    assert StepN(s, 1) == t by { assert StepN(t, 0) == t; }
    if a.offset <= 0 {
      var k, v := |a.held|, Release(a.held, mark);
      var u := t.(pc := Releasing(0), log := s.log + (vs + v));
      assert StepN(s, k + 1) == u by {
        ReleaseRuns(t);
        StepNConcat(s, 1, k);
        assert a.held[..k] == a.held;
        assert s.log + vs + v == s.log + (vs + v);
      }
      StepNConcat(s, k + 1, 1);
      assert StepN(s, k + 2) == StepN(u, 1) == StepPacket(u);
    }
  }

  /** Left alone, the steps of a callback compute the composition of the four stages. */
  lemma CallbackRuns(s: Pipe, p: Packet)
    requires s.pc.Idle?
    ensures exists n: nat ::
              var t := StepN(Next(s, Recv(p)), n);
              t.pc == Idle && t.w == Callback(s.w, p).0 && t.log == s.log + Callback(s.w, p).1
  {
    var a := Next(s, Recv(p));
    var b := StepPacket(a);
    assert StepN(a, 0) == a && StepN(a, 1) == b;
    if !b.pc.Idle? {
      assert b.log == s.log;
      if b.w.reorder.on {
        ReorderRuns(b);
        var m := Admit(b.w.reorder, p.id);
        var n: nat := if m.offset <= 0 then |m.held| + 2 else 1;
        StepNConcat(a, 1, n);
        assert StepN(a, 1 + n).pc == Idle;
      } else {
        PassOnRuns(b);
        StepNConcat(a, 1, 2);
        StepNConcat(a, 1, 3);
        StepNConcat(a, 1, 4);
      }
    }
  }

  lemma StepNFew(s: Pipe)
    ensures StepN(s, 2) == StepPacket(StepPacket(s))
    ensures StepN(s, 3) == StepPacket(StepN(s, 2)) && StepN(s, 4) == StepPacket(StepN(s, 3))
  {}

  lemma PassOnRuns(s: Pipe)
    requires s.pc.AtReorder? && !s.w.reorder.on
    ensures var p := s.pc.p;
            var n := if DropsDuplicate(s.w.dedup, s.w.win.lastAck, p) then 2
                     else if HandleRwnd(s.w.win, p, s.w.mark).handled then 3 else 4;
            var t := StepN(s, n);
            t.pc == Idle && t.w == PassOn(s.w, p).0 && t.log == s.log + PassOn(s.w, p).1
  {
    var a := StepPacket(s);
    var b := StepPacket(a);
    var c := StepPacket(b);
    StepNFew(s);
    if b.pc.AtRwnd? && !c.pc.Idle? {
      assert c.log == s.log;
    }
  }
}
