/** What a run leaves in each queue: its status, its mark and the controller's modes are always
    what the latest event that writes them wrote, whatever samples and packets come between. */
module Registers {
  import opened Machine
  import opened Action
  import opened Scheduler
  import opened Dispatch
  import opened Lifecycle
  import opened Window
  import Nfqueue

  datatype Reg = StatusOf(q: nat) | MarkOf(q: nat) | DedupOf(q: nat) | RewriteOf(q: nat) | BurstOf(q: nat) | AdaptOf(q: nat)

  datatype Val = Status(status: Nfqueue.Status) | Mark(mark: u32) | Flag(flag: bool)

  function Read(s: Sys, r: Reg): Val
    requires Live(s, r.q)
  {
    var slot := s.slots[r.q];
    match r
    case StatusOf(_) => Status(slot.status)
    case MarkOf(_) => Mark(slot.w.mark)
    case DedupOf(_) => Flag(slot.w.dedup)
    case RewriteOf(_) => Flag(slot.w.win.on)
    case BurstOf(_) => Flag(slot.w.win.burst)
    case AdaptOf(_) => Flag(slot.w.win.adapt)
  }

  /** The value an action writes to a register, if any. */
  function Writes(r: Reg, a: Action): Option<Val> {
    if !On(a, r.q) then None else
    match r
    case StatusOf(_) =>
      (match a
       case InitNfqueue(_, junk) => Some(Status(junk.status))
       case StartNfqueue(_) => Some(Status(Nfqueue.Running))
       case StopNfqueue(_) => Some(Status(Nfqueue.Stopped))
       case _ => None)
    case MarkOf(_) =>
      (match a
       case InitNfqueue(_, _) => Some(Mark(0))
       case Set(_, x) => if x.SetMark? then Some(Mark(x.mark)) else None
       case _ => None)
    case DedupOf(_) =>
      (match a
       case InitNfqueue(_, _) => Some(Flag(false))
       case Set(_, x) => if x.SetDedup? then Some(Flag(x.enable)) else None
       case _ => None)
    case RewriteOf(_) =>
      (match a
       case InitNfqueue(_, _) => Some(Flag(false))
       case Attach(_, args) => Some(Flag(args.enable))
       case _ => None)
    case BurstOf(_) =>
      (match a
       case InitNfqueue(_, _) => Some(Flag(false))
       case Solution(_, _) => Some(Flag(false))
       case Burst(_, mode) => Some(Flag(mode != 0))
       case Adapt(_, mode) => if mode > 0 then Some(Flag(false)) else None
       case _ => None)
    case AdaptOf(_) =>
      (match a
       case InitNfqueue(_, _) => Some(Flag(false))
       case Solution(_, _) => Some(Flag(false))
       case Burst(_, mode) => if mode > 0 then Some(Flag(false)) else None
       case Adapt(_, mode) => Some(Flag(mode != 0))
       case Attach(_, _) => Some(Flag(true))
       case _ => None)
  }

  lemma PerformWrites(s: Sys, a: Action, r: Reg)
    requires !Perform(s, a).crashed && Live(Perform(s, a), r.q)
    ensures match Writes(r, a)
            case Some(v) => Read(Perform(s, a), r) == v
            case None => Live(s, r.q) && Read(Perform(s, a), r) == Read(s, r)
  {
    if r.BurstOf? || r.AdaptOf? { PerformWritesModes(s, a, r); } else { PerformWritesQueue(s, a, r); }
  }

  lemma PerformWritesQueue(s: Sys, a: Action, r: Reg)
    requires !Perform(s, a).crashed && Live(Perform(s, a), r.q) && !r.BurstOf? && !r.AdaptOf?
    ensures match Writes(r, a)
            case Some(v) => Read(Perform(s, a), r) == v
            case None => Live(s, r.q) && Read(Perform(s, a), r) == Read(s, r)
  {}

  lemma PerformWritesModes(s: Sys, a: Action, r: Reg)
    requires !Perform(s, a).crashed && Live(Perform(s, a), r.q) && (r.BurstOf? || r.AdaptOf?)
    ensures match Writes(r, a)
            case Some(v) => Read(Perform(s, a), r) == v
            case None => Live(s, r.q) && Read(Perform(s, a), r) == Read(s, r)
  {}

  /** Among the first `n` events, `k` is the latest that writes `r`. */
  ghost predicate LastWrite(evs: seq<Ev>, n: nat, r: Reg, k: int) {
    && 0 <= k < n <= |evs| && Writes(r, evs[k].action).Some?
    && forall j :: k < j < n ==> Writes(r, evs[j].action).None?
  }

  ghost predicate Reflects(evs: seq<Ev>, s: Sys, n: nat, r: Reg) {
    Live(s, r.q) ==>
      exists k :: LastWrite(evs, n, r, k) && Read(s, r) == Writes(r, evs[k].action).value
  }

  lemma EventReflects(evs: seq<Ev>, s: Sys, n: nat, r: Reg)
    requires n < |evs| && Reflects(evs, s, n, r) && !Perform(s, evs[n].action).crashed
    ensures Reflects(evs, Perform(s, evs[n].action), n + 1, r)
  {
    var a := evs[n].action;
    if Live(Perform(s, a), r.q) {
      PerformWrites(s, a, r);
      if Writes(r, a).Some? {
        assert LastWrite(evs, n + 1, r, n);
      } else {
        var k :| LastWrite(evs, n, r, k) && Read(s, r) == Writes(r, evs[k].action).value;
        assert LastWrite(evs, n + 1, r, k);
      }
    }
  }

  lemma InterfereReflects(evs: seq<Ev>, s: Sys, n: nat, r: Reg, env: Env)
    requires Reflects(evs, s, n, r)
    ensures Reflects(evs, Interfere(s, env), n, r)
  {}

  lemma TickReflects(evs: seq<Ev>, s: Sys, n: nat, r: Reg, fire: int)
    requires Reflects(evs, s, n, r)
    ensures Reflects(evs, Tick(s.(tcp := s.tcp.(fire := fire))), n, r)
  {}

  /** Every register of every live queue holds what the latest event that writes it wrote. */
  lemma {:induction false} RunReflects(evs: seq<Ev>, s: Sys, envs: seq<Env>, r: Reg) returns (n: nat)
    requires Sound(evs) && Fresh(s)
    ensures Healthy(evs, LoopRun(Begin(s, evs), envs), n)
    ensures Reflects(evs, LoopRun(Begin(s, evs), envs).sys, n, r)
  {
    if envs == [] {
      n := RunHealthy(evs, s, envs);
    } else {
      n := RunReflects(evs, s, envs[..|envs| - 1], r);
      n := TurnReflects(evs, LoopRun(Begin(s, evs), envs[..|envs| - 1]), n, envs[|envs| - 1], r);
    }
  }

  lemma TurnReflects(evs: seq<Ev>, m: Loop, n: nat, env: Env, r: Reg) returns (k: nat)
    requires Sound(evs) && Healthy(evs, m, n) && Reflects(evs, m.sys, n, r)
    ensures Healthy(evs, LoopStep(m, env), k) && Reflects(evs, LoopStep(m, env).sys, k, r)
  {
    k := TurnHealthy(evs, m, n, env);
    if !Done(m) {
      var s := Interfere(m.sys, env);
      AtStep(evs, m, n, env);
      AtUnique(evs, LoopStep(m, env), k);
      InterfereReflects(evs, m.sys, n, r, env);
      if evs[n].time < NextSample(s.tcp) {
        AtUnique(evs, LoopStep(m, env), n + 1);
        EventReflects(evs, s, n, r);
      } else {
        AtUnique(evs, LoopStep(m, env), n);
        TickReflects(evs, s, n, r, NextSample(s.tcp));
      }
    } else {
      AtUnique(evs, m, k);
      AtUnique(evs, m, n);
    }
  }

  lemma AtUnique(evs: seq<Ev>, m: Loop, n: nat)
    requires At(evs, m, n)
    ensures n == |m.done|
  {}

  // ---------------------------------------------------------------- freezing

  /** Actions that may change the window or the modes of queue `q`. */
  predicate Reshapes(a: Action, q: nat) {
    && On(a, q)
    && (a.InitNfqueue? || a.Solution? || a.Freeze? || (a.Burst? && a.mode != 0) || (a.Adapt? && a.mode != 0) || a.Attach?)
  }

  /** The latest reshaping event on `q` is a freeze, right after its own handover. */
  ghost predicate JustFrozen(evs: seq<Ev>, n: nat, q: nat, k: int) {
    && 0 < k < n <= |evs|
    && evs[k].action.Freeze? && evs[k].action.q == q && evs[k].action.window <= 10
    && evs[k - 1].action.Solution? && evs[k - 1].action.q == q
    && forall j :: k < j < n ==> !Reshapes(evs[j].action, q)
  }

  ghost predicate FrozenAt(evs: seq<Ev>, n: nat, q: nat) {
    exists k :: JustFrozen(evs, n, q, k)
  }

  ghost predicate FreezeHeld(evs: seq<Ev>, s: Sys, n: nat, q: nat) {
    Live(s, q) && FrozenAt(evs, n, q) ==> Frozen(s.slots[q].w.win)
  }

  lemma PlainKeepsFrozen(s: Sys, a: Action, q: nat)
    requires Live(s, q) && Frozen(s.slots[q].w.win) && !Perform(s, a).crashed && Live(Perform(s, a), q)
    requires !Reshapes(a, q)
    ensures Frozen(Perform(s, a).slots[q].w.win)
  {}

  lemma FreezeFreezes(s: Sys, a: Action, q: nat)
    requires Live(s, q) && !s.slots[q].w.win.burst && !s.slots[q].w.win.adapt && !Perform(s, a).crashed
    requires a.Freeze? && a.q == q && a.window <= 10
    ensures Frozen(Perform(s, a).slots[q].w.win)
  {}

  /** Right after a handover of the controller, both modes are off. */
  lemma ModesOff(evs: seq<Ev>, s: Sys, n: nat, q: nat)
    requires 0 < n <= |evs| && Live(s, q) && evs[n - 1].action.Solution? && evs[n - 1].action.q == q
    requires Reflects(evs, s, n, BurstOf(q)) && Reflects(evs, s, n, AdaptOf(q))
    ensures !s.slots[q].w.win.burst && !s.slots[q].w.win.adapt
  {}

  lemma EventHoldsFreeze(evs: seq<Ev>, s: Sys, n: nat, q: nat)
    requires n < |evs| && FreezeHeld(evs, s, n, q) && !s.crashed && !Perform(s, evs[n].action).crashed
    requires Reflects(evs, s, n, BurstOf(q)) && Reflects(evs, s, n, AdaptOf(q))
    ensures FreezeHeld(evs, Perform(s, evs[n].action), n + 1, q)
  {
    var a, t := evs[n].action, Perform(s, evs[n].action);
    if Live(t, q) && FrozenAt(evs, n + 1, q) {
      var k :| JustFrozen(evs, n + 1, q, k);
      if k == n {
        assert Live(s, q);
        ModesOff(evs, s, n, q);
        FreezeFreezes(s, a, q);
      } else {
        assert JustFrozen(evs, n, q, k);
        assert !Reshapes(a, q);
        PlainKeepsFrozen(s, a, q);
      }
    }
  }

  lemma TickHoldsFreeze(evs: seq<Ev>, s: Sys, n: nat, q: nat, fire: int)
    requires FreezeHeld(evs, s, n, q)
    ensures FreezeHeld(evs, Tick(s.(tcp := s.tcp.(fire := fire))), n, q)
  {}

  lemma InterfereHoldsFreeze(evs: seq<Ev>, s: Sys, n: nat, q: nat, env: Env)
    requires FreezeHeld(evs, s, n, q)
    ensures FreezeHeld(evs, Interfere(s, env), n, q)
  {}

  lemma TurnHoldsFreeze(evs: seq<Ev>, m: Loop, n: nat, env: Env, q: nat) returns (k: nat)
    requires Sound(evs) && Healthy(evs, m, n) && FreezeHeld(evs, m.sys, n, q)
    requires Reflects(evs, m.sys, n, BurstOf(q)) && Reflects(evs, m.sys, n, AdaptOf(q))
    ensures Healthy(evs, LoopStep(m, env), k) && FreezeHeld(evs, LoopStep(m, env).sys, k, q)
  {
    k := TurnHealthy(evs, m, n, env);
    if Done(m) {
      AtUnique(evs, m, k);
      AtUnique(evs, m, n);
    } else {
      var s := Interfere(m.sys, env);
      AtStep(evs, m, n, env);
      AtUnique(evs, LoopStep(m, env), k);
      InterfereHoldsFreeze(evs, m.sys, n, q, env);
      if evs[n].time < NextSample(s.tcp) {
        AtUnique(evs, LoopStep(m, env), n + 1);
        InterfereReflects(evs, m.sys, n, BurstOf(q), env);
        InterfereReflects(evs, m.sys, n, AdaptOf(q), env);
        InterfereKeeps(m.sys, env);
        EventHoldsFreeze(evs, s, n, q);
      } else {
        AtUnique(evs, LoopStep(m, env), n);
        TickHoldsFreeze(evs, s, n, q, NextSample(s.tcp));
      }
    }
  }

  /** After the freeze of a handover, until the next event that reshapes the controller, the window
      is exactly 10 and both modes are off, whatever samples and packets come. */
  lemma {:induction false} RunHoldsFreeze(evs: seq<Ev>, s: Sys, envs: seq<Env>, q: nat) returns (n: nat)
    requires Sound(evs) && Fresh(s)
    ensures Healthy(evs, LoopRun(Begin(s, evs), envs), n)
    ensures FreezeHeld(evs, LoopRun(Begin(s, evs), envs).sys, n, q)
  {
    if envs == [] {
      n := RunHealthy(evs, s, envs);
    } else {
      var k := |envs| - 1;
      n := RunHoldsFreeze(evs, s, envs[..k], q);
      var m := LoopRun(Begin(s, evs), envs[..k]);
      var i := RunReflects(evs, s, envs[..k], BurstOf(q));
      var j := RunReflects(evs, s, envs[..k], AdaptOf(q));
      AtUnique(evs, m, n);
      AtUnique(evs, m, i);
      AtUnique(evs, m, j);
      n := TurnHoldsFreeze(evs, m, n, envs[k], q);
    }
  }
}
