/** The queue consumer (src/nfqueue.c): an atomic status written by start, stop and teardown, and
    polled by the consumer thread before each message. */
module Nfqueue {
  /** `Other` is any value `malloc` may leave behind: the poll has no case for it and goes on as if
      the queue were running. */
  datatype Status = Stopped | Running | Dead | Other

  /** Where the consumer thread is: about to load the status, blocked in `recv`, holding a message
      it is about to handle, or returned. */
  datatype Thread = AtPoll | AtRecv | AtHandle(msg: int) | Exited

  datatype Queue = Queue(status: Status, thread: Thread, arrived: seq<int>, pending: seq<int>, handled: seq<int>)

  /** The writes of the scheduler thread, an arriving message, and the consumer's own steps; a step
      that is not possible yet leaves the queue alone. */
  datatype Event = Start | Stop | Teardown | Arrive(msg: int) | Poll | Receive | ReceiveFails | Handle

  function AfterPoll(s: Status): Thread {
    match s
    case Stopped => AtPoll
    case Dead => Exited
    case Running => AtRecv
    case Other => AtRecv
  }

  function Next(q: Queue, e: Event): Queue {
    match e
    case Start => q.(status := Running)
    case Stop => q.(status := Stopped)
    case Teardown => q.(status := Dead)
    case Arrive(m) => q.(arrived := q.arrived + [m], pending := q.pending + [m])
    case Poll => if q.thread.AtPoll? then q.(thread := AfterPoll(q.status)) else q
    case Receive =>
      if q.thread.AtRecv? && q.pending != []
      then q.(thread := AtHandle(q.pending[0]), pending := q.pending[1..])
      else q
    case ReceiveFails => if q.thread.AtRecv? then q.(thread := AtPoll) else q
    case Handle =>
      if q.thread.AtHandle? then q.(thread := AtPoll, handled := q.handled + [q.thread.msg]) else q
  }

  function Run(q: Queue, es: seq<Event>): Queue {
    if es == [] then q else Next(Run(q, es[..|es| - 1]), es[|es| - 1])
  }

  function InHand(t: Thread): seq<int> { if t.AtHandle? then [t.msg] else [] }

  /** A queue just opened: the thread runs, the status is whatever the memory held. */
  predicate Initial(q: Queue) {
    q.thread.AtPoll? && q.arrived == [] && q.pending == [] && q.handled == []
  }

  ghost predicate InOrder(q: Queue) {
    q.arrived == q.handled + InHand(q.thread) + q.pending
  }

  lemma StepKeepsOrder(q: Queue, e: Event)
    requires InOrder(q)
    ensures InOrder(Next(q, e))
  {}

  /** Over every interleaving, messages are handled in arrival order and none is skipped: what has
      been handled, what is in hand and what is pending are exactly what arrived. */
  lemma {:induction false} HandledInOrder(q: Queue, es: seq<Event>)
    requires Initial(q)
    ensures InOrder(Run(q, es))
  {
    if es == [] {
      assert q.handled + [] + q.pending == [];
    } else {
      HandledInOrder(q, es[..|es| - 1]);
      StepKeepsOrder(Run(q, es[..|es| - 1]), es[|es| - 1]);
    }
  }

  /** Messages a stopped consumer may still handle: one, if it had passed its poll. */
  function Leftover(t: Thread): nat { if t.AtRecv? || t.AtHandle? then 1 else 0 }

  /** After a stop, and until the next start, at most one more message is handled, and none when
      the thread had not passed its poll; whatever else happens, teardown included. */
  lemma {:induction false} AtMostOneAfterStop(q: Queue, es: seq<Event>)
    requires Start !in es
    ensures var t := Run(Next(q, Stop), es);
            && (t.status.Stopped? || t.status.Dead?)
            && |q.handled| <= |t.handled|
            && |t.handled| + Leftover(t.thread) <= |q.handled| + Leftover(q.thread)
  {
    if es != [] {
      AtMostOneAfterStop(q, es[..|es| - 1]);
      var t, e := Run(Next(q, Stop), es[..|es| - 1]), es[|es| - 1];
      assert e in es;
    }
  }

  /** The bound is met: a message that arrives while the thread waits in `recv` is handled. */
  lemma StopMayLetOneThrough(q: Queue, m: int)
    requires q.thread.AtRecv? && q.pending == []
    ensures Run(Next(q, Stop), [Arrive(m), Receive, Handle]).handled == q.handled + [m]
  {
    var es := [Arrive(m), Receive, Handle];
    var a := Next(Next(q, Stop), es[0]);
    var b := Next(a, es[1]);
    assert es[..2][..1][..0] == [] && es[..2][..1] == [es[0]];
    assert Run(Next(q, Stop), es[..2][..1]) == a;
    assert Run(Next(q, Stop), es[..2]) == b;
  }

  /** Once the thread has seen the queue dead, nothing more is handled, not even after a start. */
  lemma {:induction false} NothingAfterDead(q: Queue, es: seq<Event>)
    requires q.thread.AtPoll? && q.status.Dead?
    ensures var t := Run(Next(q, Poll), es); t.thread.Exited? && t.handled == q.handled
  {
    if es != [] {
      NothingAfterDead(q, es[..|es| - 1]);
    }
  }

  // --------------------------------------------------- the mutable context

  class NfqCtx {
    var status: Status
    var thread: Thread
    /** The socket: what was ever delivered to it, and what is still unread. */
    var arrived: seq<int>
    var pending: seq<int>
    var handled: seq<int>

    ghost function View(): Queue
      reads this
    {
      Queue(status, thread, arrived, pending, handled)
    }

    constructor (junk: Status)
      ensures Initial(View()) && status == junk
    {
      status, thread, arrived, pending, handled := junk, AtPoll, [], [], [];
    }

    method Begin()
      modifies `status
      ensures View() == Next(old(View()), Start)
    {
      status := Running;
    }

    method Halt()
      modifies `status
      ensures View() == Next(old(View()), Stop)
    {
      status := Stopped;
    }

    /** The status is written first: the queue is dead even when destroying it or closing its handle
        fails. */
    method Close(destroyFails: bool, closeFails: bool) returns (ret: int)
      modifies `status
      ensures View() == Next(old(View()), Teardown)
      ensures ret == if destroyFails || closeFails then -1 else 0
    {
      ret := 0;
      status := Dead;
      if destroyFails {
        ret := -1;
      }
      if closeFails {
        ret := -1;
      }
    }

    method Deliver(m: int)
      modifies `arrived, `pending
      ensures View() == Next(old(View()), Arrive(m))
    {
      arrived := arrived + [m];
      pending := pending + [m];
    }

    /** One turn of the `nfq_run` loop when no other thread gets in between; `fails` says that
        `recv` reports an error. */
    method Turn(fails: bool)
      requires thread.AtPoll? && (status.Running? || status.Other? ==> fails || pending != [])
      modifies `thread, `pending, `handled
      ensures View() == Run(old(View()), [Poll] + (if fails then [ReceiveFails] else [Receive, Handle]))
      ensures status.Running? ==> thread.AtPoll? && pending == if fails then old(pending) else old(pending)[1..]
      ensures handled == old(handled)
              + if fails || status.Stopped? || status.Dead? then [] else [old(pending)[0]]
    {
      ghost var q := View();
      RunTwo(q, Poll, ReceiveFails);
      RunThree(q, Poll, Receive, Handle);
      if status.Stopped? || status.Dead? {
        thread := if status.Dead? then Exited else AtPoll;
        assert handled + [] == handled;
        return;
      }
      thread := AtRecv;
      if fails {
        thread := AtPoll;
        assert handled + [] == handled;
        return;
      }
      thread, pending := AtHandle(pending[0]), pending[1..];
      handled := handled + [thread.msg];
      thread := AtPoll;
    }

    /** The `nfq_run` loop of a running queue that nothing stops: it handles all that is pending, in
        order. */
    method Drain()
      requires thread.AtPoll? && status.Running?
      modifies `thread, `pending, `handled
      ensures thread.AtPoll? && pending == [] && handled == old(handled) + old(pending)
    {
      ghost var all := handled + pending;
      while pending != []
        invariant thread.AtPoll? && handled + pending == all
        decreases |pending|
      {
        assert pending == [pending[0]] + pending[1..];
        ghost var h, p := handled, pending;
        Turn(false);
        assert h + p == (h + [p[0]]) + p[1..];
      }
      assert handled + [] == handled;
    }

    /** A queue that is stopped keeps what arrives, and handles it, in order, when it is started again. */
    method Resume(msgs: seq<int>)
      requires thread.AtPoll? && status.Stopped?
      modifies `status, `thread, `arrived, `pending, `handled
      ensures status.Running? && thread.AtPoll? && pending == []
      ensures arrived == old(arrived) + msgs && handled == old(handled) + old(pending) + msgs
    {
      var i := 0;
      while i < |msgs|
        invariant 0 <= i <= |msgs| && status.Stopped? && thread.AtPoll? && handled == old(handled)
        invariant arrived == old(arrived) + msgs[..i] && pending == old(pending) + msgs[..i]
      {
        Deliver(msgs[i]);
        assert msgs[..i + 1] == msgs[..i] + [msgs[i]];
        i := i + 1;
      }
      assert msgs[..|msgs|] == msgs;
      Begin();
      Drain();
    }
  }

  lemma RunTwo(q: Queue, e: Event, f: Event)
    ensures Run(q, [e] + [f]) == Next(Next(q, e), f)
  {
    assert ([e] + [f])[..1][..0] == [];
    assert Run(q, ([e] + [f])[..1]) == Next(q, e);
  }

  lemma RunThree(q: Queue, e: Event, f: Event, g: Event)
    ensures Run(q, [e] + [f, g]) == Next(Next(Next(q, e), f), g)
  {
    RunTwo(q, e, f);
    assert ([e] + [f, g])[..2] == [e] + [f];
  }
}
