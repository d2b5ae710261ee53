/** The effect of a reordering handover on any packet stream: which packets are dropped, and in
    which order the others leave, whatever the scheduler does to marks and windows meanwhile. */
module Reordering {
  import opened Machine
  import opened Worker
  import opened Pipeline

  /** The order in which `rest`, the packets that survive the drop stage, leaves an episode armed
      with count `c` and offset `o`: once `c + o` packets have come, the block of `o` packets
      overtakes the `c` packets before it, which follow in reverse. An episode armed with count and
      offset both 0 swallows its first packet. */
  function Reordered(c: nat, o: nat, rest: seq<u32>): seq<u32> {
    if o == 0 then rest[|Forgotten(c, o, rest)|..]
    else if |rest| < c + o then rest[Min(c, |rest|)..]
    else rest[c..c + o] + Reverse(rest[..c]) + rest[c + o..]
  }

  /** The packets of an episode that get neither a verdict nor a place in the buffer. */
  function Forgotten(c: nat, o: nat, rest: seq<u32>): (r: seq<u32>)
    ensures |r| <= |rest|
  {
    if c == 0 && o == 0 then rest[..Min(1, |rest|)] else []
  }

  /** Whether an episode is over after `n` packets. */
  predicate Over(c: nat, o: nat, n: nat) { if o == 0 then n >= 1 else n >= c + o }

  /** The drop stage will drop exactly the next `left` packets. */
  predicate Dropping(x: DropState, left: int) { if left > 0 then x == DropState(true, left) else !x.on }

  predicate PastReorder(pc: Pc) { pc.AtDedup? || pc.AtRwnd? || pc.AtAccept? }

  // The packet in flight: before the drop stage, between the drop and the reorder stage, or past both.

  function Entering(pc: Pc): seq<u32> { if pc.AtDrop? then [pc.p.id] else [] }

  function Between(pc: Pc): seq<u32> { if pc.AtReorder? then [pc.p.id] else [] }

  function Leaving(pc: Pc): seq<u32> { if PastReorder(pc) then [pc.p.id] else [] }

  function Survived(pc: Pc): seq<u32> { if pc.AtReorder? || PastReorder(pc) then [pc.p.id] else [] }

  /** An episode has just been armed, and the next `d` packets will be dropped before it; a packet
      may be in flight. */
  predicate ArmedFor(s: Pipe, d: nat, c: nat, o: nat) {
    !s.pc.Releasing? && Dropping(s.w.drop, d) && s.w.reorder == ReorderState(true, c, o, []) && !s.w.dedup
  }

  predicate Gentle(e: Event) { e.Set? ==> e.setter.SetMark? || e.setter.SetWin? }

  /** Packets and packet steps, and any setter but those of the drop, reorder and dedup stages. */
  predicate Undisturbed(es: seq<Event>) { forall e :: e in es ==> Gentle(e) }

  // -------------------------------------------------------- the output order

  /** The reorder stage after `rest` has come through. */
  ghost predicate Holds(r: ReorderState, c: nat, o: nat, rest: seq<u32>) {
    if Over(c, o, |rest|) then !r.on && r.held == []
    else r.on && r.count == c - |rest| && r.offset == o - Max(0, |rest| - c) && r.held == rest[..Min(c, |rest|)]
  }

  /** What the stage accepts at once of one more packet, and what it then releases. */
  function PassesNow(c: nat, o: nat, n: nat, y: u32): seq<u32> { if o > 0 && n >= c then [y] else [] }

  function ReleasesNow(c: nat, o: nat, rest: seq<u32>, y: u32): seq<u32> {
    if o == 0 then (if c == 0 then [] else [y])
    else if |rest| + 1 == c + o then Reverse(rest[..Min(c, |rest|)]) else []
  }

  /** One more packet through the reorder stage. */
  lemma ReorderedOne(c: nat, o: nat, rest: seq<u32>, y: u32)
    requires !Over(c, o, |rest|)
    ensures Reordered(c, o, rest + [y]) == Reordered(c, o, rest) + PassesNow(c, o, |rest|, y) + ReleasesNow(c, o, rest, y)
  {
    var n, z := |rest|, rest + [y];
    if o == 0 {
      assert rest == [] && z == [y];
    } else if n < c {
      assert Reordered(c, o, rest) == [] == Reordered(c, o, z);
    } else if n + 1 < c + o {
      assert z[c..] == rest[c..] + [y];
      assert Reordered(c, o, z) == Reordered(c, o, rest) + [y];
    } else {
      assert z[c..c + o] == rest[c..] + [y] && z[..c] == rest[..c] && z[c + o..] == [];
      assert Reordered(c, o, z) == Reordered(c, o, rest) + [y] + Reverse(rest[..c]);
    }
  }

  /** And after the episode. */
  lemma ReorderedLater(c: nat, o: nat, rest: seq<u32>, y: u32)
    requires Over(c, o, |rest|)
    ensures Reordered(c, o, rest + [y]) == Reordered(c, o, rest) + [y]
    ensures Forgotten(c, o, rest + [y]) == Forgotten(c, o, rest)
  {
    var z := rest + [y];
    if o > 0 {
      assert z[c..c + o] == rest[c..c + o] && z[..c] == rest[..c] && z[c + o..] == rest[c + o..] + [y];
    }
  }

  /** The stage itself takes one more packet as the order says. */
  lemma AdmitHolds(r: ReorderState, c: nat, o: nat, rest: seq<u32>, y: u32)
    requires Holds(r, c, o, rest) && r.on
    ensures var a := Admit(r, y);
            if Over(c, o, |rest| + 1)
            then a.offset <= 0 && Reverse(a.held) == ReleasesNow(c, o, rest, y)
            else a.offset > 0 && Holds(a, c, o, rest + [y]) && ReleasesNow(c, o, rest, y) == []
    ensures (r.count <= 0 && r.offset > 0) == (PassesNow(c, o, |rest|, y) == [y])
    ensures (r.count <= 0 && r.offset <= 0) == (c == 0 && o == 0)
  {
    var a := Admit(r, y);
    if Over(c, o, |rest| + 1) {
      assert a.held == if o == 0 then (if c == 0 then [] else [y]) else rest[..c];
    } else if |rest| < c {
      assert (rest + [y])[..|rest| + 1] == rest + [y] && rest[..|rest|] == rest;
    } else {
      assert (rest + [y])[..c] == rest[..c];
    }
  }

  // ------------------------------------------------- through the reorder stage

  /** The ids accepted, followed by the first `left` of those held, in reverse, are `out`. */
  ghost predicate ReleasesTo(acc: seq<u32>, held: seq<u32>, left: nat, out: seq<u32>) {
    left <= |held| && acc + Reverse(held[..left]) == out
  }

  /** The accepted ids, followed by those still to be released, are the reordered stream. */
  ghost predicate Leaves(s: Pipe, t: Pipe, c: nat, o: nat, rest: seq<u32>) {
    && t.lost == s.lost + Forgotten(c, o, rest)
    && if t.pc.Releasing? then
         Over(c, o, |rest|) && ReleasesTo(Accepted(t.log), t.w.reorder.held, t.pc.left, Accepted(s.log) + Reordered(c, o, rest))
       else
         && Holds(t.w.reorder, c, o, rest)
         && Accepted(t.log) == Accepted(s.log) + Reordered(c, o, rest)
  }

  lemma AdmitLog(t: Pipe, c: nat, o: nat, rest: seq<u32>)
    requires t.pc.AtReorder? && t.w.reorder.on && Holds(t.w.reorder, c, o, rest)
    ensures var y, u := t.pc.p.id, StepPacket(t);
            && Accepted(u.log) == Accepted(t.log) + PassesNow(c, o, |rest|, y) && Dropped(u.log) == Dropped(t.log)
            && u.lost == t.lost + (if c == 0 && o == 0 then [y] else [])
            && u.w == t.w.(reorder := Admit(t.w.reorder, y)) && u.received == t.received
            && u.pc == if Admit(t.w.reorder, y).offset <= 0 then Releasing(|Admit(t.w.reorder, y).held|) else Idle
  {
    var y, u, r := t.pc.p.id, StepPacket(t), t.w.reorder;
    AdmitHolds(r, c, o, rest, y);
    if r.count <= 0 && r.offset > 0 {
      LogOne(t.log, Accept(y, t.w.mark, None));
    } else {
      assert u.log == t.log;
    }
  }

  lemma TrackAdmit(s: Pipe, t: Pipe, c: nat, o: nat, rest: seq<u32>)
    requires Leaves(s, t, c, o, rest) && t.pc.AtReorder? && t.w.reorder.on
    ensures Leaves(s, StepPacket(t), c, o, rest + [t.pc.p.id])
  {
    var y, r, u := t.pc.p.id, t.w.reorder, StepPacket(t);
    AdmitLog(t, c, o, rest);
    AdmitHolds(r, c, o, rest, y);
    ReorderedOne(c, o, rest, y);
    var now, then' := PassesNow(c, o, |rest|, y), ReleasesNow(c, o, rest, y);
    Regroup(Accepted(s.log), Reordered(c, o, rest), now, then');
    ForgottenOne(s.lost, c, o, rest, y);
    if Over(c, o, |rest| + 1) {
      TakeAll(u.w.reorder.held);
    }
  }

  lemma ForgottenOne(lost: seq<u32>, c: nat, o: nat, rest: seq<u32>, y: u32)
    requires !Over(c, o, |rest|)
    ensures lost + Forgotten(c, o, rest + [y]) == lost + Forgotten(c, o, rest) + (if c == 0 && o == 0 then [y] else [])
  {}

  lemma Regroup(acc: seq<u32>, out: seq<u32>, now: seq<u32>, later: seq<u32>)
    ensures acc + (out + now + later) == (acc + out + now) + later
    ensures later == [] ==> acc + (out + now + later) == acc + out + now
  {}

  lemma TakeAll(h: seq<u32>)
    ensures h[..|h|] == h
  {}

  lemma ReleaseOne(acc: seq<u32>, h: seq<u32>, k: nat, out: seq<u32>)
    requires 0 < k && ReleasesTo(acc, h, k, out)
    ensures ReleasesTo(acc + [h[k - 1]], h, k - 1, out)
  {
    assert Reverse(h[..k]) == [h[k - 1]] + Reverse(h[..k - 1]);
  }

  lemma ReleaseNone(acc: seq<u32>, h: seq<u32>)
    ensures acc + Reverse(h[..0]) == acc
  {}

  lemma ReleaseStep(t: Pipe)
    requires t.pc.Releasing? && 0 < t.pc.left <= |t.w.reorder.held|
    ensures var k, u := t.pc.left, StepPacket(t);
            && Accepted(u.log) == Accepted(t.log) + [t.w.reorder.held[k - 1]] && Dropped(u.log) == Dropped(t.log)
            && u == t.(log := u.log, pc := Releasing(k - 1))
  {
    LogOne(t.log, Accept(t.w.reorder.held[t.pc.left - 1], t.w.mark, None));
  }

  lemma TrackReleased(s: Pipe, t: Pipe, u: Pipe, c: nat, o: nat, rest: seq<u32>)
    requires Leaves(s, t, c, o, rest) && t.pc.Releasing? && t.pc.left > 0
    requires u == t.(log := u.log, pc := Releasing(t.pc.left - 1))
    requires ReleasesTo(Accepted(u.log), t.w.reorder.held, t.pc.left - 1, Accepted(s.log) + Reordered(c, o, rest))
    ensures Leaves(s, u, c, o, rest)
  {}

  lemma TrackEnd(s: Pipe, t: Pipe, u: Pipe, c: nat, o: nat, rest: seq<u32>)
    requires Leaves(s, t, c, o, rest) && t.pc == Releasing(0)
    requires u == t.(w := t.w.(reorder := EndEpisode(t.w.reorder)), pc := Idle)
    ensures Leaves(s, u, c, o, rest)
  {
    ReleaseNone(Accepted(t.log), t.w.reorder.held);
  }

  lemma TrackRelease(s: Pipe, t: Pipe, c: nat, o: nat, rest: seq<u32>)
    requires Leaves(s, t, c, o, rest) && t.pc.Releasing?
    ensures Leaves(s, StepPacket(t), c, o, rest)
    ensures Dropped(StepPacket(t).log) == Dropped(t.log)
  {
    var k, h := t.pc.left, t.w.reorder.held;
    if k > 0 {
      ReleaseStep(t);
      ReleaseOne(Accepted(t.log), h, k, Accepted(s.log) + Reordered(c, o, rest));
      TrackReleased(s, t, StepPacket(t), c, o, rest);
    } else {
      TrackEnd(s, t, StepPacket(t), c, o, rest);
    }
  }

  /** A packet that reaches the dedup stage after the episode is accepted next. */
  lemma TrackAccept(s: Pipe, t: Pipe, c: nat, o: nat, rest: seq<u32>, v: Verdict)
    requires Leaves(s, t, c, o, rest) && Over(c, o, |rest|) && (t.pc.AtRwnd? || t.pc.AtAccept?)
    requires v.Accept? && v.id == t.pc.p.id
    ensures Leaves(s, t.(pc := Idle, log := t.log + [v]), c, o, rest + [v.id])
    ensures Dropped(t.log + [v]) == Dropped(t.log)
  {
    LogOne(t.log, v);
    ReorderedLater(c, o, rest, v.id);
    Regroup(Accepted(s.log), Reordered(c, o, rest), [v.id], []);
  }

  // ----------------------------------------------------- from an idle thread

  /** `t` is reached from `s` after dropping `dr` and passing `mid + rest` through the reorder stage,
      where `mid` was already between the two stages. */
  ghost predicate Tracks(s: Pipe, t: Pipe, d: nat, c: nat, o: nat, mid: seq<u32>, dr: seq<u32>, rest: seq<u32>) {
    && |dr| <= d && (rest != [] ==> |dr| == d)
    && Ids(t.received) == Ids(s.received) + dr + rest + InFlight(t.pc)
    && Dropped(t.log) == Dropped(s.log) + dr
    && Dropping(t.w.drop, d - |dr|) && !t.w.dedup
    && Leaves(s, t, c, o, mid + rest)
    && (t.pc.AtReorder? ==> |dr| == d)
    && (PastReorder(t.pc) ==> |dr| == d && Over(c, o, |mid + rest|))
  }

  lemma MoveDropped(base: seq<u32>, dr: seq<u32>, y: u32)
    ensures base + dr + [] + [y] == base + (dr + [y]) + [] + []
    ensures base + dr + [y] == base + (dr + [y])
  {}

  lemma MovePassed(base: seq<u32>, mid: seq<u32>, rest: seq<u32>, y: u32)
    ensures base + rest + [y] == base + (rest + [y]) + []
    ensures mid + (rest + [y]) == mid + rest + [y]
  {}

  /** The drop stage has dropped its packet, or let it through. */
  ghost predicate Drops(t: Pipe, u: Pipe, left: int) {
    && t.pc.AtDrop? && left > 0
    && u == t.(w := t.w.(drop := u.w.drop), log := u.log, pc := Idle) && Dropping(u.w.drop, left - 1)
    && Accepted(u.log) == Accepted(t.log) && Dropped(u.log) == Dropped(t.log) + [t.pc.p.id]
  }

  lemma DropStep(t: Pipe, left: nat)
    requires t.pc.AtDrop? && Dropping(t.w.drop, left)
    ensures if left > 0 then Drops(t, StepPacket(t), left) else StepPacket(t) == t.(pc := AtReorder(t.pc.p))
  {
    if left > 0 {
      LogOne(t.log, Drop(t.pc.p.id));
    } else {
      assert t.log + [] == t.log;
    }
  }

  lemma TrackDrops(s: Pipe, t: Pipe, u: Pipe, d: nat, c: nat, o: nat, mid: seq<u32>, dr: seq<u32>)
    requires Tracks(s, t, d, c, o, mid, dr, []) && Drops(t, u, d - |dr|)
    ensures Tracks(s, u, d, c, o, mid, dr + [t.pc.p.id], [])
  {
    MoveDropped(Ids(s.received), dr, t.pc.p.id);
    MoveDropped(Dropped(s.log), dr, t.pc.p.id);
  }

  lemma TrackDrop(s: Pipe, t: Pipe, d: nat, c: nat, o: nat, mid: seq<u32>, dr: seq<u32>, rest: seq<u32>)
    requires Tracks(s, t, d, c, o, mid, dr, rest) && t.pc.AtDrop?
    ensures Tracks(s, StepPacket(t), d, c, o, mid, if |dr| < d then dr + [t.pc.p.id] else dr, rest)
  {
    DropStep(t, d - |dr|);
    if |dr| < d {
      TrackDrops(s, t, StepPacket(t), d, c, o, mid, dr);
    }
  }

  lemma TrackReorder(s: Pipe, t: Pipe, d: nat, c: nat, o: nat, mid: seq<u32>, dr: seq<u32>, rest: seq<u32>)
    requires Tracks(s, t, d, c, o, mid, dr, rest) && t.pc.AtReorder? && t.w.reorder.on
    ensures Tracks(s, StepPacket(t), d, c, o, mid, dr, rest + [t.pc.p.id])
  {
    TrackAdmit(s, t, c, o, mid + rest);
    AdmitLog(t, c, o, mid + rest);
    MovePassed(Ids(s.received) + dr, mid, rest, t.pc.p.id);
  }

  lemma TrackPassed(s: Pipe, t: Pipe, d: nat, c: nat, o: nat, mid: seq<u32>, dr: seq<u32>, rest: seq<u32>)
    requires Tracks(s, t, d, c, o, mid, dr, rest) && (t.pc.AtRwnd? || t.pc.AtAccept?)
    ensures var u := StepPacket(t); Tracks(s, u, d, c, o, mid, dr, if u.pc.Idle? then rest + [t.pc.p.id] else rest)
  {
    var y, u := t.pc.p.id, StepPacket(t);
    if u.pc.Idle? {
      var v := Accept(y, t.w.mark, if t.pc.AtAccept? then None else Some(t.w.win.rwnd));
      assert u.log == t.log + [v];
      TrackAccept(s, t, c, o, mid + rest, v);
      MovePassed(Ids(s.received) + dr, mid, rest, y);
    } else {
      assert u.log == t.log;
    }
  }

  /** One step of the packet thread, and how it moves a packet from in flight to `dr` or `rest`. */
  lemma TrackStep(s: Pipe, t: Pipe, d: nat, c: nat, o: nat, mid: seq<u32>, dr: seq<u32>, rest: seq<u32>)
    returns (dr': seq<u32>, rest': seq<u32>)
    requires Tracks(s, t, d, c, o, mid, dr, rest)
    ensures Tracks(s, StepPacket(t), d, c, o, mid, dr', rest')
  {
    dr', rest' := dr, rest;
    match t.pc
    case Idle =>
    case AtDrop(p) =>
      TrackDrop(s, t, d, c, o, mid, dr, rest);
      dr' := if |dr| < d then dr + [p.id] else dr;
    case AtReorder(p) =>
      if t.w.reorder.on {
        TrackReorder(s, t, d, c, o, mid, dr, rest);
        rest' := rest + [p.id];
      }
    case Releasing(_) =>
      TrackRelease(s, t, c, o, mid + rest);
    case AtDedup(p) =>
    case AtRwnd(p) =>
      TrackPassed(s, t, d, c, o, mid, dr, rest);
      rest' := if StepPacket(t).pc.Idle? then rest + [p.id] else rest;
    case AtAccept(p) =>
      TrackPassed(s, t, d, c, o, mid, dr, rest);
      rest' := rest + [p.id];
  }

  lemma TrackReceive(s: Pipe, t: Pipe, d: nat, c: nat, o: nat, mid: seq<u32>, dr: seq<u32>, rest: seq<u32>, p: Packet)
    requires Tracks(s, t, d, c, o, mid, dr, rest)
    ensures Tracks(s, Next(t, Recv(p)), d, c, o, mid, dr, rest)
  {
    if t.pc.Idle? {
      assert Ids(t.received + [p]) == Ids(t.received) + [p.id];
    }
  }

  lemma TrackSet(s: Pipe, t: Pipe, d: nat, c: nat, o: nat, mid: seq<u32>, dr: seq<u32>, rest: seq<u32>, x: Setter)
    requires Tracks(s, t, d, c, o, mid, dr, rest) && Gentle(Set(x))
    ensures Tracks(s, Next(t, Set(x)), d, c, o, mid, dr, rest)
  {}

  lemma TrackNext(s: Pipe, t: Pipe, e: Event, d: nat, c: nat, o: nat, mid: seq<u32>, dr: seq<u32>, rest: seq<u32>)
    returns (dr': seq<u32>, rest': seq<u32>)
    requires Tracks(s, t, d, c, o, mid, dr, rest) && Gentle(e)
    ensures Tracks(s, Next(t, e), d, c, o, mid, dr', rest')
  {
    dr', rest' := dr, rest;
    match e
    case Recv(p) => TrackReceive(s, t, d, c, o, mid, dr, rest, p);
    case Step => dr', rest' := TrackStep(s, t, d, c, o, mid, dr, rest);
    case Set(x) => TrackSet(s, t, d, c, o, mid, dr, rest, x);
  }

  lemma {:induction false} TrackRun(s: Pipe, t: Pipe, es: seq<Event>, d: nat, c: nat, o: nat, mid: seq<u32>)
    returns (dr: seq<u32>, rest: seq<u32>)
    requires Tracks(s, t, d, c, o, mid, [], []) && Undisturbed(es)
    ensures Tracks(s, Run(t, es), d, c, o, mid, dr, rest)
  {
    if es == [] {
      dr, rest := [], [];
    } else {
      var n := |es| - 1;
      dr, rest := TrackRun(s, t, es[..n], d, c, o, mid);
      assert es[n] in es;
      dr, rest := TrackNext(s, Run(t, es[..n]), es[n], d, c, o, mid, dr, rest);
    }
  }

  // ------------------------------------------------------- from any thread

  /** The drop stage has cut `tail` into the first `d`, which it dropped, and the rest. */
  ghost predicate Cut(d: nat, tail: seq<u32>, dr: seq<u32>, rest: seq<u32>) {
    tail == dr + rest && |dr| <= d && (rest != [] ==> |dr| == d)
  }

  lemma CutIs(d: nat, tail: seq<u32>, dr: seq<u32>, rest: seq<u32>)
    ensures Cut(d, tail, dr, rest) <==> dr == tail[..Min(d, |tail|)] && rest == tail[Min(d, |tail|)..]
  {
    var k := Min(d, |tail|);
    if Cut(d, tail, dr, rest) {
      assert tail[..|dr|] == dr && tail[|dr|..] == rest && |dr| == k;
    } else {
      assert tail == tail[..k] + tail[k..];
    }
  }

  /** What has become of the packets so far. */
  datatype Book = Book(ids: seq<u32>, dropped: seq<u32>, accepted: seq<u32>, lost: seq<u32>)

  function BookOf(s: Pipe): Book { Book(Ids(s.received), Dropped(s.log), Accepted(s.log), s.lost) }

  /** Between two books `now` was received, `dr` was dropped, and `first` and then the reordered
      `rest` has left. */
  ghost predicate Went(a: Book, b: Book, c: nat, o: nat, now: seq<u32>, dr: seq<u32>, first: seq<u32>, rest: seq<u32>) {
    && b.ids == a.ids + now && b.dropped == a.dropped + dr
    && b.accepted == a.accepted + first + Reordered(c, o, rest)
    && b.lost == a.lost + Forgotten(c, o, rest)
  }

  /** The whole effect, when `now` has been received since the arming `s`. */
  ghost predicate Effect(s: Pipe, t: Pipe, d: nat, c: nat, o: nat, now: seq<u32>, dr: seq<u32>, rest: seq<u32>) {
    && Cut(d, Entering(s.pc) + now, dr, rest)
    && Went(BookOf(s), BookOf(t), c, o, now, dr, Leaving(s.pc), Between(s.pc) + rest)
    && (Over(c, o, |Between(s.pc) + rest|) ==> !t.w.reorder.on && t.w.reorder.held == [])
  }

  lemma Assoc(a: seq<u32>, b: seq<u32>, c: seq<u32>)
    ensures a + b + c == a + (b + c)
  {}

  /** What went before, then what went after. */
  lemma WentThen(a: Book, m: Book, b: Book, c: nat, o: nat, now: seq<u32>, dr: seq<u32>, x: seq<u32>,
                 now': seq<u32>, dr': seq<u32>, first: seq<u32>, rest: seq<u32>)
    requires m == Book(a.ids + now, a.dropped + dr, a.accepted + x, a.lost)
    requires Went(m, b, c, o, now', dr', first, rest)
    ensures Went(a, b, c, o, now + now', dr + dr', x + first, rest)
  {
    Assoc(a.ids, now, now');
    Assoc(a.dropped, dr, dr');
    Assoc(a.accepted, x, first);
  }

  lemma TrackedWent(a: Book, b: Book, d: nat, c: nat, o: nat, mid: seq<u32>, dr: seq<u32>, rest: seq<u32>)
    requires |dr| <= d && (rest != [] ==> |dr| == d)
    requires b == Book(a.ids + dr + rest + [], a.dropped + dr, a.accepted + Reordered(c, o, mid + rest), a.lost + Forgotten(c, o, mid + rest))
    ensures Cut(d, [] + (dr + rest), dr, rest) && Went(a, b, c, o, dr + rest, dr, [], mid + rest)
  {
    Assoc(a.ids, dr, rest);
    assert a.ids + dr + rest + [] == a.ids + dr + rest;
    assert a.accepted + [] == a.accepted && [] + (dr + rest) == dr + rest;
  }

  /** What has been tracked is the effect on what was received. */
  lemma TrackedEffect(s: Pipe, t: Pipe, d: nat, c: nat, o: nat, dr: seq<u32>, rest: seq<u32>)
    requires s.pc.Idle? || s.pc.AtReorder?
    requires Tracks(s, t, d, c, o, Between(s.pc), dr, rest) && t.pc.Idle?
    ensures Effect(s, t, d, c, o, dr + rest, dr, rest)
  {
    TrackedWent(BookOf(s), BookOf(t), d, c, o, Between(s.pc), dr, rest);
  }

  lemma {:induction false} RunConcat(s: Pipe, a: seq<Event>, b: seq<Event>)
    ensures Run(s, a + b) == Run(Run(s, a), b)
  {
    if b == [] {
      assert a + b == a;
    } else {
      var n := |b| - 1;
      RunConcat(s, a, b[..n]);
      assert (a + b)[..|a| + n] == a + b[..n];
    }
  }

  /** Setters of marks and windows, and packets that find the thread busy, leave all this alone. */
  predicate Alike(s: Pipe, r: Pipe) {
    r == s.(w := s.w.(mark := r.w.mark, win := r.w.win))
  }

  lemma {:induction false} FirstStep(s: Pipe, es: seq<Event>) returns (n: nat)
    requires Undisturbed(es) && !s.pc.Idle?
    ensures n <= |es| && Alike(s, Run(s, es[..n])) && (n < |es| ==> es[n].Step?)
  {
    if es == [] {
      n := 0;
    } else {
      var k := |es| - 1;
      n := FirstStep(s, es[..k]);
      assert es[..k][..n] == es[..n];
      if n == k {
        assert es[k] in es;
        assert es[..k + 1] == es && es[..k + 1][..k] == es[..k];
        n := if es[k].Step? then k else k + 1;
      }
    }
  }

  /** A busy thread that becomes idle takes a step first. */
  lemma Resume(s: Pipe, es: seq<Event>) returns (r: Pipe, later: seq<Event>)
    requires Undisturbed(es) && !s.pc.Idle? && Run(s, es).pc.Idle?
    ensures Alike(s, r) && Run(s, es) == Run(StepPacket(r), later) && Undisturbed(later) && |later| < |es|
  {
    var n := FirstStep(s, es);
    assert es[..|es|] == es;
    r, later := Run(s, es[..n]), es[n + 1..];
    assert es == es[..n + 1] + later && es[..n + 1][..n] == es[..n];
    RunConcat(s, es[..n + 1], later);
    assert forall e :: e in later ==> e in es;
  }

  lemma CutDrop(d: nat, y: u32, now: seq<u32>, dr: seq<u32>, rest: seq<u32>)
    requires d > 0 && Cut(d - 1, now, dr, rest)
    ensures Cut(d, [y] + now, [y] + dr, rest)
  {
    Assoc([y], dr, rest);
  }

  lemma AfterDrop(s: Pipe, u: Pipe, t: Pipe, d: nat, c: nat, o: nat, now: seq<u32>, dr: seq<u32>, rest: seq<u32>)
    requires s.pc.AtDrop? && u.pc.Idle? && d > 0 && Effect(u, t, d - 1, c, o, now, dr, rest)
    requires BookOf(u) == BookOf(s).(dropped := Dropped(s.log) + [s.pc.p.id])
    ensures Effect(s, t, d, c, o, now, [s.pc.p.id] + dr, rest)
  {
    assert [] + now == now && Ids(s.received) + [] == Ids(s.received) && Accepted(s.log) + [] == Accepted(s.log);
    CutDrop(d, s.pc.p.id, now, dr, rest);
    WentThen(BookOf(s), BookOf(u), BookOf(t), c, o, [], [s.pc.p.id], [], now, dr, [], [] + rest);
  }

  lemma AfterNoDrop(s: Pipe, u: Pipe, t: Pipe, c: nat, o: nat, now: seq<u32>, dr: seq<u32>, rest: seq<u32>)
    requires s.pc.AtDrop? && u.pc == AtReorder(s.pc.p) && Effect(u, t, 0, c, o, now, dr, rest) && BookOf(u) == BookOf(s)
    ensures Effect(s, t, 0, c, o, now, dr, [s.pc.p.id] + rest)
  {
    var y := s.pc.p.id;
    assert dr == [] && now == rest by { assert [] + now == now && [] + rest == rest; }
    assert [y] + now == [] + ([y] + rest) && [] + ([y] + rest) == [y] + rest;
  }

  lemma AfterLeaving(s: Pipe, u: Pipe, t: Pipe, d: nat, c: nat, o: nat, now: seq<u32>, dr: seq<u32>, rest: seq<u32>)
    requires PastReorder(s.pc) && u.pc.Idle? && Effect(u, t, d, c, o, now, dr, rest)
    requires BookOf(u) == BookOf(s).(accepted := Accepted(s.log) + [s.pc.p.id])
    ensures Effect(s, t, d, c, o, now, dr, rest)
  {
    assert Ids(s.received) + [] == Ids(s.received) && Dropped(s.log) + [] == Dropped(s.log);
    WentThen(BookOf(s), BookOf(u), BookOf(t), c, o, [], [], [s.pc.p.id], now, dr, [], [] + rest);
    assert [] + now == now && [] + dr == dr && [s.pc.p.id] + [] == [s.pc.p.id];
  }

  /** A packet past the reorder stage moves on, or is accepted. */
  lemma LeaveStep(t: Pipe)
    requires PastReorder(t.pc) && !t.w.dedup
    ensures var u := StepPacket(t);
            && u.w == t.w.(win := u.w.win)
            && if u.pc.Idle? then BookOf(u) == BookOf(t).(accepted := Accepted(t.log) + [t.pc.p.id])
               else BookOf(u) == BookOf(t) && PastReorder(u.pc) && u.pc.p == t.pc.p
  {
    var u := StepPacket(t);
    if u.pc.Idle? {
      var v := u.log[|t.log|];
      assert u.log == t.log + [v] && v.Accept? && v.id == t.pc.p.id;
      LogOne(t.log, v);
    } else {
      assert u.log == t.log;
    }
  }

  lemma StepKeepsArmed(s: Pipe, r: Pipe, d: nat, c: nat, o: nat)
    requires ArmedFor(s, d, c, o) && Alike(s, r) && (s.pc.AtDrop? || PastReorder(s.pc))
    ensures ArmedFor(StepPacket(r), if s.pc.AtDrop? && d > 0 then d - 1 else d, c, o)
  {}

  lemma TrackStart(s: Pipe, d: nat, c: nat, o: nat)
    requires ArmedFor(s, d, c, o) && s.pc.Idle?
    ensures Tracks(s, s, d, c, o, [], [], [])
  {
    assert Ids(s.received) + [] + [] + [] == Ids(s.received);
  }

  lemma TrackStartBetween(s: Pipe, r: Pipe, d: nat, c: nat, o: nat)
    requires ArmedFor(s, d, c, o) && s.pc.AtReorder? && Alike(s, r)
    ensures Tracks(s, StepPacket(r), d, c, o, [s.pc.p.id], [], [])
  {
    assert Leaves(s, r, c, o, []);
    TrackAdmit(s, r, c, o, []);
    AdmitLog(r, c, o, []);
    assert [] + [s.pc.p.id] == [s.pc.p.id] + [];
    assert Ids(s.received) + [] + [] + [] == Ids(s.received);
    assert Dropped(s.log) + [] == Dropped(s.log);
  }

  /** From the moment an episode is armed, wherever the packet thread is, whatever packets come and
      whatever happens to marks, windows and samples between any two steps, whenever the thread is
      idle: the first `d` packets to enter the drop stage have been dropped; a packet already past
      the reorder stage has left first; and the others have left in the reordered order. */
  lemma {:induction false} HandoverEffect(s: Pipe, es: seq<Event>, d: nat, c: nat, o: nat)
    returns (now: seq<u32>, dr: seq<u32>, rest: seq<u32>)
    requires ArmedFor(s, d, c, o) && Undisturbed(es) && Run(s, es).pc.Idle?
    ensures Effect(s, Run(s, es), d, c, o, now, dr, rest)
    decreases |es|
  {
    var t := Run(s, es);
    if s.pc.Idle? {
      TrackStart(s, d, c, o);
      dr, rest := TrackRun(s, s, es, d, c, o, []);
      TrackedEffect(s, t, d, c, o, dr, rest);
      now := dr + rest;
      return;
    }
    var r, later := Resume(s, es);
    if s.pc.AtReorder? {
      TrackStartBetween(s, r, d, c, o);
      dr, rest := TrackRun(s, StepPacket(r), later, d, c, o, [s.pc.p.id]);
      TrackedEffect(s, t, d, c, o, dr, rest);
      now := dr + rest;
      return;
    }
    StepKeepsArmed(s, r, d, c, o);
    now, dr, rest := HandoverEffect(StepPacket(r), later, if s.pc.AtDrop? && d > 0 then d - 1 else d, c, o);
    if PastReorder(s.pc) {
      LeaveStep(r);
      if StepPacket(r).pc.Idle? { AfterLeaving(s, StepPacket(r), t, d, c, o, now, dr, rest); }
    } else {
      DropStep(r, d);
      if d > 0 {
        AfterDrop(s, StepPacket(r), t, d, c, o, now, dr, rest);
        dr := [s.pc.p.id] + dr;
      } else {
        AfterNoDrop(s, StepPacket(r), t, c, o, now, dr, rest);
        rest := [s.pc.p.id] + rest;
      }
    }
  }

  // ----------------------------------- between arming the two stages

  /** Of what was received between two books, `dr` was dropped, `y` let through and `ent` is about to
      enter; `x` has left and `out` is about to. */
  ghost predicate Moved(a: Book, b: Book, ent0: seq<u32>, out0: seq<u32>, ent: seq<u32>, out: seq<u32>,
                        now: seq<u32>, dr: seq<u32>, y: seq<u32>, x: seq<u32>) {
    && b == Book(a.ids + now, a.dropped + dr, a.accepted + x, a.lost)
    && ent0 + now == dr + y + ent && out0 + y == x + out
  }

  /** The drop stage is armed and no episode is running (or none can notice). `t` is reached from
      `s` after receiving `now`, of which `dr` was dropped and `y` let through; `x` has left. */
  ghost predicate Flows(s: Pipe, t: Pipe, d: nat, now: seq<u32>, dr: seq<u32>, y: seq<u32>, x: seq<u32>) {
    && !t.w.dedup && !t.pc.Releasing? && (t.w.reorder.on ==> t.pc.Idle?)
    && |dr| <= d && (|dr| < d ==> y == []) && Dropping(t.w.drop, d - |dr|)
    && Moved(BookOf(s), BookOf(t), Entering(s.pc), Survived(s.pc), Entering(t.pc), Survived(t.pc), now, dr, y, x)
  }

  lemma FlowStart(s: Pipe, d: nat)
    requires Dropping(s.w.drop, d) && !s.w.dedup && !s.pc.Releasing? && (s.w.reorder.on ==> s.pc.Idle?)
    ensures Flows(s, s, d, [], [], [], [])
  {
    assert Entering(s.pc) + [] == [] + [] + Entering(s.pc) && Survived(s.pc) + [] == [] + Survived(s.pc);
    var a := BookOf(s);
    assert a.ids + [] == a.ids && a.dropped + [] == a.dropped && a.accepted + [] == a.accepted;
  }

  lemma MovedDrop(a: Book, b: Book, ent0: seq<u32>, out0: seq<u32>, p: u32, now: seq<u32>, dr: seq<u32>, x: seq<u32>)
    requires Moved(a, b, ent0, out0, [p], [], now, dr, [], x)
    ensures Moved(a, b.(dropped := b.dropped + [p]), ent0, out0, [], [], now, dr + [p], [], x)
  {
    Assoc(a.dropped, dr, [p]);
    assert dr + [] + [p] == dr + [p] + [] + [];
  }

  lemma MovedEnter(a: Book, b: Book, ent0: seq<u32>, out0: seq<u32>, p: u32, now: seq<u32>, dr: seq<u32>, y: seq<u32>, x: seq<u32>)
    requires Moved(a, b, ent0, out0, [p], [], now, dr, y, x)
    ensures Moved(a, b, ent0, out0, [], [p], now, dr, y + [p], x)
  {
    Assoc(dr, y, [p]);
    assert dr + (y + [p]) + [] == dr + (y + [p]);
    Assoc(out0, y, [p]);
    assert x + [] == x;
  }

  lemma MovedOut(a: Book, b: Book, ent0: seq<u32>, out0: seq<u32>, p: u32, now: seq<u32>, dr: seq<u32>, y: seq<u32>, x: seq<u32>)
    requires Moved(a, b, ent0, out0, [], [p], now, dr, y, x)
    ensures Moved(a, b.(accepted := b.accepted + [p]), ent0, out0, [], [], now, dr, y, x + [p])
  {
    Assoc(a.accepted, x, [p]);
    assert x + [p] + [] == x + [p];
  }

  lemma MovedIn(a: Book, b: Book, ent0: seq<u32>, out0: seq<u32>, p: u32, now: seq<u32>, dr: seq<u32>, y: seq<u32>, x: seq<u32>)
    requires Moved(a, b, ent0, out0, [], [], now, dr, y, x)
    ensures Moved(a, b.(ids := b.ids + [p]), ent0, out0, [p], [], now + [p], dr, y, x)
  {
    Assoc(a.ids, now, [p]);
    Assoc(ent0, now, [p]);
    assert dr + y + [] == dr + y;
  }

  lemma FlowDrop(s: Pipe, t: Pipe, d: nat, now: seq<u32>, dr: seq<u32>, y: seq<u32>, x: seq<u32>)
    requires Flows(s, t, d, now, dr, y, x) && t.pc.AtDrop?
    ensures var p, u := t.pc.p.id, StepPacket(t);
            if |dr| < d then Flows(s, u, d, now, dr + [p], y, x) else Flows(s, u, d, now, dr, y + [p], x)
  {
    DropStep(t, d - |dr|);
    if |dr| < d {
      MovedDrop(BookOf(s), BookOf(t), Entering(s.pc), Survived(s.pc), t.pc.p.id, now, dr, x);
    } else {
      MovedEnter(BookOf(s), BookOf(t), Entering(s.pc), Survived(s.pc), t.pc.p.id, now, dr, y, x);
    }
  }

  lemma FlowLeave(s: Pipe, t: Pipe, d: nat, now: seq<u32>, dr: seq<u32>, y: seq<u32>, x: seq<u32>)
    requires Flows(s, t, d, now, dr, y, x) && PastReorder(t.pc)
    ensures var u := StepPacket(t); Flows(s, u, d, now, dr, y, if u.pc.Idle? then x + [t.pc.p.id] else x)
  {
    LeaveStep(t);
    if StepPacket(t).pc.Idle? {
      MovedOut(BookOf(s), BookOf(t), Entering(s.pc), Survived(s.pc), t.pc.p.id, now, dr, y, x);
    }
  }

  lemma FlowStep(s: Pipe, t: Pipe, d: nat, now: seq<u32>, dr: seq<u32>, y: seq<u32>, x: seq<u32>)
    returns (dr': seq<u32>, y': seq<u32>, x': seq<u32>)
    requires Flows(s, t, d, now, dr, y, x) && !t.pc.Idle?
    ensures Flows(s, StepPacket(t), d, now, dr', y', x') && StepPacket(t).w.reorder == t.w.reorder
  {
    dr', y', x' := dr, y, x;
    if t.pc.AtDrop? {
      FlowDrop(s, t, d, now, dr, y, x);
      if |dr| < d { dr' := dr + [t.pc.p.id]; } else { y' := y + [t.pc.p.id]; }
    } else if PastReorder(t.pc) {
      FlowLeave(s, t, d, now, dr, y, x);
      if StepPacket(t).pc.Idle? { x' := x + [t.pc.p.id]; }
    }
  }

  lemma FlowReceive(s: Pipe, t: Pipe, d: nat, now: seq<u32>, dr: seq<u32>, y: seq<u32>, x: seq<u32>, p: Packet)
    requires Flows(s, t, d, now, dr, y, x) && t.pc.Idle? && !t.w.reorder.on
    ensures Flows(s, Next(t, Recv(p)), d, now + [p.id], dr, y, x)
  {
    assert Ids(t.received + [p]) == Ids(t.received) + [p.id];
    MovedIn(BookOf(s), BookOf(t), Entering(s.pc), Survived(s.pc), p.id, now, dr, y, x);
  }

  lemma FlowNext(s: Pipe, t: Pipe, d: nat, e: Event, now: seq<u32>, dr: seq<u32>, y: seq<u32>, x: seq<u32>)
    returns (now': seq<u32>, dr': seq<u32>, y': seq<u32>, x': seq<u32>)
    requires Flows(s, t, d, now, dr, y, x) && Gentle(e) && (e.Recv? ==> !t.w.reorder.on)
    ensures Flows(s, Next(t, e), d, now', dr', y', x') && Next(t, e).w.reorder == t.w.reorder
  {
    now', dr', y', x' := now, dr, y, x;
    match e
    case Recv(p) =>
      if t.pc.Idle? {
        FlowReceive(s, t, d, now, dr, y, x, p);
        now' := now + [p.id];
      }
    case Step =>
      if !t.pc.Idle? { dr', y', x' := FlowStep(s, t, d, now, dr, y, x); }
    case Set(_) =>
  }

  lemma {:induction false} FlowRun(s: Pipe, es: seq<Event>, d: nat)
    returns (now: seq<u32>, dr: seq<u32>, y: seq<u32>, x: seq<u32>)
    requires Dropping(s.w.drop, d) && !s.w.dedup && !s.pc.Releasing? && Undisturbed(es)
    requires s.w.reorder.on ==> s.pc.Idle? && forall e :: e in es ==> !e.Recv?
    ensures Flows(s, Run(s, es), d, now, dr, y, x) && Run(s, es).w.reorder == s.w.reorder
  {
    if es == [] {
      FlowStart(s, d);
      now, dr, y, x := [], [], [], [];
    } else {
      var n := |es| - 1;
      now, dr, y, x := FlowRun(s, es[..n], d);
      assert es[n] in es;
      now, dr, y, x := FlowNext(s, Run(s, es[..n]), d, es[n], now, dr, y, x);
    }
  }

  /** A handover without reordering: the first `d` packets to enter are dropped, the others leave
      in order. */
  lemma LossEffect(s: Pipe, es: seq<Event>, d: nat) returns (now: seq<u32>, dr: seq<u32>, rest: seq<u32>)
    requires Dropping(s.w.drop, d) && !s.w.dedup && !s.pc.Releasing? && !s.w.reorder.on && Undisturbed(es)
    requires Run(s, es).pc.Idle?
    ensures BookOf(Run(s, es)) == Book(Ids(s.received) + now, Dropped(s.log) + dr, Accepted(s.log) + (Survived(s.pc) + rest), s.lost)
    ensures Cut(d, Entering(s.pc) + now, dr, rest)
  {
    var x;
    now, dr, rest, x := FlowRun(s, es, d);
    assert dr + rest + [] == dr + rest && x + [] == x;
  }

  // --------------------------------------------------------- both together

  lemma JoinDropped(in0: seq<u32>, now: seq<u32>, more: seq<u32>, dr: seq<u32>, y: seq<u32>, ent: seq<u32>, dr2: seq<u32>, rest2: seq<u32>)
    requires in0 + now == dr + y + ent && ent + more == dr2 + rest2 && (y == [] || dr2 == [])
    ensures in0 + (now + more) == (dr + dr2) + (y + rest2)
  {
    calc {
      in0 + (now + more);
      (in0 + now) + more;
      dr + y + ent + more;
      (dr + y) + (ent + more);
      (dr + y) + (dr2 + rest2);
      (dr + dr2) + (y + rest2);
    }
  }

  lemma JoinPassed(past: seq<u32>, y: seq<u32>, x: seq<u32>, btw: seq<u32>, lev: seq<u32>, rest2: seq<u32>)
    requires past + y == x + (btw + lev) && (btw == [] || lev == [])
    ensures past + (y + rest2) == (x + lev) + (btw + rest2)
  {
    calc {
      past + (y + rest2);
      (past + y) + rest2;
      x + (btw + lev) + rest2;
      (x + lev) + (btw + rest2);
    }
  }

  /** What a handover does to the stream, from the moment `s` its drop stage is armed: `b` happens
      before the reorder stage is armed with `c` and `o`, and `es` after. The drop stage drops the
      first `d` packets that enter it. Of those that survive it, `first` has passed the reorder
      stage before that was armed and leaves in order; `rest` leaves in the reordered order. */
  lemma StreamEffect(s: Pipe, b: seq<Event>, es: seq<Event>, d: nat, c: u16, o: u16)
    returns (now: seq<u32>, dr: seq<u32>, through: seq<u32>, first: seq<u32>, rest: seq<u32>)
    requires Dropping(s.w.drop, d) && !s.w.dedup && !s.pc.Releasing? && Undisturbed(b) && Undisturbed(es)
    requires s.w.reorder.on ==> s.pc.Idle? && forall e :: e in b ==> !e.Recv?
    requires Run(Next(Run(s, b), Set(SetReorder(true, c, o))), es).pc.Idle?
    ensures var r := Run(s, b);
            var t := Run(Next(r, Set(SetReorder(true, c, o))), es);
            && Cut(d, Entering(s.pc) + now, dr, through)
            && Survived(s.pc) + through == first + rest
            && |first| == |Accepted(r.log)| - |Accepted(s.log)| + |Leaving(r.pc)|
            && (r.w.drop.on && Survived(s.pc) == [] ==> first == [])
            && Went(BookOf(s), BookOf(t), Min(c, WORKER_MAX_REORDER_COUNT), o, now, dr, first, rest)
  {
    var r, u, cc := Run(s, b), Next(Run(s, b), Set(SetReorder(true, c, o))), Min(c, WORKER_MAX_REORDER_COUNT);
    var n, dr1, y, x := FlowRun(s, b, d);
    assert ArmedFor(u, d - |dr1|, cc, o) && u.pc == r.pc && BookOf(u) == BookOf(r);
    var more, dr2, rest2 := HandoverEffect(u, es, d - |dr1|, cc, o);
    now, dr, through, first, rest := n + more, dr1 + dr2, y + rest2, x + Leaving(r.pc), Between(r.pc) + rest2;
    JoinDropped(Entering(s.pc), n, more, dr1, y, Entering(r.pc), dr2, rest2);
    assert Survived(r.pc) == Between(r.pc) + Leaving(r.pc);
    JoinPassed(Survived(s.pc), y, x, Between(r.pc), Leaving(r.pc), rest2);
    WentThen(BookOf(s), BookOf(u), BookOf(Run(u, es)), cc, o, n, dr1, x, more, dr2, Leaving(r.pc), rest);
  }
}
