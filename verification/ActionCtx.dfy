/** The mutable `action_ctx` and `tcp_ctx`, and the actions as the scheduler calls them. The queue and
    worker of a slot are kept by value. */
module ActionContext {
  import opened Machine
  import W = Worker
  import opened Action
  import Nfqueue

  class ActionCtx {
    var slots: map<nat, Slot>
    // the tcp_ctx
    var fire: int
    var wkctx: Option<nat>
    var mark: int
    var sampleInterval: int
    var burstSampleInterval: int
    var threshold: int
    var pace: int
    var links: Links
    /** Set where the program would leave defined behaviour. */
    var crashed: bool

    ghost function TcpView(): Tcp
      reads this
    {
      Tcp(fire, wkctx, mark, sampleInterval, burstSampleInterval, threshold, pace, links)
    }

    ghost function View(): Sys
      reads this
    {
      Sys(slots, TcpView(), crashed)
    }

    /** `action_init_ctx` and `init_tcp_scheduler`; `junk` is the uninitialised rest of the `tcp_ctx`. */
    constructor (junk: Tcp)
      ensures View() == Sys(map[], junk.(fire := NEVER, worker := None, interval := 0), false)
    {
      slots := map[];
      fire, wkctx, sampleInterval := NEVER, None, 0;
      mark, burstSampleInterval, threshold, pace, links :=
        junk.mark, junk.burstInterval, junk.threshold, junk.pace, junk.links;
      crashed := false;
    }

    method PutWindow(q: nat, v: W.WindowState)
      requires q in slots
      modifies `slots
      ensures slots == old(slots)[q := old(slots[q]).(w := old(slots[q]).w.(win := v))]
    {
      slots := slots[q := slots[q].(w := slots[q].w.(win := v))];
    }

    method SolUpdate(q: nat, m: int)
      modifies `slots, `links, `mark, `crashed
      ensures View() == Perform(old(View()), Solution(q, m))
    {
      if crashed { return; }
      if !(q in slots && InRange(m) && (slots[q].w.win.rwnd > 0 ==> InRange(mark))) {
        crashed := true;
        return;
      }
      var v := slots[q].w.win;
      if v.rwnd > 0 {
        links := links.Put(mark, links.Get(mark).(rw := v.rwnd));
        mark := m;
      }
      PutWindow(q, W.ApplyWin(v, W.SolUpdate(links.Get(m).rw)));
    }

    method SetRwnd(q: nat, window: u16)
      modifies `slots, `crashed
      ensures View() == Perform(old(View()), Freeze(q, window))
    {
      if crashed { return; }
      if q !in slots {
        crashed := true;
        return;
      }
      var rwnd := window;
      if rwnd < 10 {
        rwnd := 10;
      }
      PutWindow(q, W.ApplyWin(slots[q].w.win, W.SetRwnd(rwnd)));
    }

    method SetBurst(q: nat, mode: int)
      modifies `slots, `links, `sampleInterval, `crashed
      ensures View() == Perform(old(View()), Burst(q, mode))
    {
      if crashed { return; }
      if !(q in slots && InRange(mark)) {
        crashed := true;
        return;
      }
      var v := W.ApplyWin(slots[q].w.win, W.SetBurst(mode, links.Get(mark).rw));
      PutWindow(q, v);
      if mode > 0 {
        sampleInterval := burstSampleInterval;
      } else if v.rwnd > links.Get(mark).rw {
        links := links.Put(mark, links.Get(mark).(rw := v.rwnd));
      }
    }

    method SetAdapt(q: nat, mode: int)
      modifies `slots, `sampleInterval, `crashed
      ensures View() == Perform(old(View()), Adapt(q, mode))
    {
      if crashed { return; }
      if !(q in slots && InRange(mark)) {
        crashed := true;
        return;
      }
      if mode > 0 {
        sampleInterval := links.Get(mark).rtt;
      }
      PutWindow(q, W.ApplyWin(slots[q].w.win, W.SetAdapt(mode, links.Get(mark).rw)));
    }

    /** Link the sampler to the worker of `q` and load its parameters. */
    method Load(q: nat, args: SchedArgs)
      requires q in slots
      modifies `links, `fire, `wkctx, `mark, `sampleInterval, `burstSampleInterval, `threshold, `pace
      ensures TcpView() == DoAttach(old(CtlOf(View(), q)), q, args).tcp
    {
      links := Links(links.zero, args.one, args.two);
      fire, wkctx, mark, sampleInterval := args.fire, Some(q), args.mark, links.Get(args.mark).rtt;
      burstSampleInterval, threshold, pace := args.sampleInterval, args.threshold, args.pace;
    }

    method InitTcpSched(q: nat, args: SchedArgs)
      modifies this
      ensures View() == Perform(old(View()), Attach(q, args))
    {
      if crashed { return; }
      if !(q in slots && InRange(args.mark)) {
        crashed := true;
        return;
      }
      Load(q, args);
      var v := W.ApplyWin(slots[q].w.win, W.InitTcpSched(args.enable));
      PutWindow(q, W.ApplyWin(v, W.SetRwnd(ToU16(links.Get(mark).rw))));
    }

    /** `tcp_schedule`, called by the scheduler's loop. */
    method TcpSchedule()
      modifies `slots, `crashed
      ensures View() == Tick(old(View()))
    {
      if crashed { return; }
      if !(wkctx.Some? && wkctx.value in slots) {
        crashed := true;
        return;
      }
      var v := slots[wkctx.value].w.win;
      var tune := v.rwnd;
      if v.burst {
        if !(sampleInterval > 0 && InRange(mark)) {
          crashed := true;
          return;
        }
        var est := BurstEstimate(v.rcvd, links.Get(mark).rtt, sampleInterval);
        if est > tune {
          tune := ToU16(est);
        }
      } else if v.adapt {
        var cw := v.rcvd / 1024;
        if tune > 0 {
          if 100 * cw > threshold * tune {
            tune := ToU16(tune * (100 + pace) / 100);
          } else if 10 * cw < 7 * tune {
            tune := ToU16(tune * (400 - pace) / 400);
          }
        }
      }
      PutWindow(wkctx.value, v.(rwnd := tune, rcvd := 0));
    }

    /** The queue and worker actions, which reach no further than one slot. */
    method OnSlot(a: Action)
      requires a.InitNfqueue? || a.StartNfqueue? || a.StopNfqueue? || a.TeardownNfqueue? || a.Set?
      modifies `slots, `crashed
      ensures View() == Perform(old(View()), a)
    {
      if crashed { return; }
      if a.InitNfqueue? {
        if a.q >= ACTION_MAX_NFQUEUE {
          crashed := true;
        } else {
          slots := slots[a.q := Slot(a.junk.status, W.InitState(a.junk.worker))];
        }
        return;
      }
      if a.q !in slots {
        crashed := true;
        return;
      }
      if a.TeardownNfqueue? {
        slots := slots - {a.q};
      } else if a.Set? {
        slots := slots[a.q := slots[a.q].(w := W.Apply(slots[a.q].w, a.setter))];
      } else {
        slots := slots[a.q := slots[a.q].(status := if a.StartNfqueue? then Nfqueue.Running else Nfqueue.Stopped)];
      }
    }

    /** What the packet threads have done to the workers since the last action. */
    method Meddle(env: Env)
      modifies `slots
      ensures View() == Interfere(old(View()), env)
    {
      slots := map q | q in slots ::
        if q in env then slots[q].(w := Disturb(slots[q].w, env[q])) else slots[q];
    }

    /** The handler of an event. */
    method Execute(a: Action)
      modifies this
      ensures View() == Perform(old(View()), a)
    {
      match a
      case Command(_) => return;
      case Solution(q, m) => SolUpdate(q, m);
      case Freeze(q, r) => SetRwnd(q, r);
      case Burst(q, mode) => SetBurst(q, mode);
      case Adapt(q, mode) => SetAdapt(q, mode);
      case Attach(q, args) => InitTcpSched(q, args);
      case _ => OnSlot(a);
    }
  }
}
