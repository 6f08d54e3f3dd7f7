/** CPU throttling by SIGSTOP and SIGCONT: a controller on cumulative totals. */
module Throttle {
  import opened Wrappers
  import opened TimeMath
  import opened Kernel

  datatype Config = Config(percent: nat, intervalNs: U64)

  const TWO_64: nat := 0x1_0000_0000_0000_0000

  /** The budget as the program computes it, cast to 64 bits. */
  function Budget(wall: U64, percent: nat): nat { (wall * percent / 100) % TWO_64 }

  /** What the budget stands for: more than percent/100 of the wall time used. */
  predicate OverBudget(cpu: nat, wall: nat, percent: nat) { 100 * cpu > percent * wall }

  lemma FloorCompare(cpu: nat, total: nat)
    ensures cpu > total / 100 <==> 100 * cpu > total
  {
  }

  lemma FittingBudgetDecides(cpu: nat, wall: U64, percent: nat)
    requires wall * percent / 100 < TWO_64
    ensures cpu > Budget(wall, percent) <==> OverBudget(cpu, wall, percent)
  {
    FloorCompare(cpu, wall * percent);
    assert wall * percent == percent * wall;
    assert (wall * percent / 100) % TWO_64 == wall * percent / 100;
  }

  /** The word-sized test decides the true question for every processor time,
      exactly when the budget fits the word; the one wrapped value that cannot be
      told apart is the largest word. */
  lemma BudgetTestIsExactIffItFits(wall: U64, percent: nat)
    ensures (forall cpu: U64 :: cpu > Budget(wall, percent) <==> OverBudget(cpu, wall, percent))
            <==> (wall * percent / 100 < TWO_64 || Budget(wall, percent) == U64_MAX)
  {
    var exact := wall * percent / 100;
    forall cpu: U64 ensures cpu > exact <==> OverBudget(cpu, wall, percent) {
      FloorCompare(cpu, percent * wall);
      assert wall * percent == percent * wall;
    }
    if exact >= TWO_64 && Budget(wall, percent) != U64_MAX {
      var cpu: U64 := U64_MAX;
      assert cpu > Budget(wall, percent) && !OverBudget(cpu, wall, percent);
    }
  }

  /** Seven minutes into a run under the largest limit there is, the budget has just
      wrapped to 43 milliseconds: a child that has used one second of processor time,
      a tiny part of its share, counts as over it. */
  lemma WrappedBudgetStopsALightChild()
    ensures var wall, percent, cpu := 429_496_729_701, 0xFFFF_FFFF, 1_000_000_000;
            Budget(wall, percent) == 42_949_671 && cpu > Budget(wall, percent) && !OverBudget(cpu, wall, percent)
  {
  }

  class CpuThrottleState {
    const startCpu: U64
    const startWall: U64
    var lastCpu: U64
    var lastWall: U64
    var suspended: bool
    var processExited: bool

    constructor (cpu: U64, now: U64)
      ensures startCpu == lastCpu == cpu && startWall == lastWall == now
      ensures !suspended && !processExited
    {
      startCpu, startWall, lastCpu, lastWall := cpu, now, cpu, now;
      suspended, processExited := false, false;
    }

    /** While the child lives, the flag says whether it is held; a held child is
        never one the state believes to have exited. */
    ghost predicate Tracks(w: World)
      reads this
    {
      && (!w.d().dead ==> suspended == w.d().held)
      && (w.d().held ==> !processExited)
    }

    function Cpu(): nat
      reads this
    {
      if lastCpu < startCpu then 0 else lastCpu - startCpu
    }

    function Wall(): nat
      reads this
    {
      if lastWall < startWall then 0 else lastWall - startWall
    }

    /** Let the child go. Afterwards it is not held, whatever the kernel said. */
    method Resume(w: World) returns (w': World)
      requires Tracks(w)
      modifies `suspended
      ensures Tracks(w') && Later(w, w')
      ensures !w'.d().held
      ensures !(old(suspended) && !processExited) ==> w' == w
      ensures suspended ==> processExited
      ensures w'.d() == w.d().(dead := w'.d().dead, held := false, breaches := w'.d().breaches)
      ensures w.d().reaped.None? ==> w'.d().breaches == w.d().breaches
    {
      hide Replay, Usable;
      w' := w;
      if suspended && !processExited {
        var errno;
        ghost var mid;
        w', errno, mid := SendKill(w, Throttle, SIGCONT, Process);
        suspended := false;
      }
    }

    /** Whatever the child's state; one that is held stays so, and will not be let go. */
    method MarkProcessExited(ghost w: World)
      requires Tracks(w)
      modifies `suspended, `processExited
      ensures !w.d().held ==> Tracks(w)
      ensures processExited && !suspended
    {
      processExited := true;
      suspended := false;
    }

    /** Stop a running child that is over budget; continue a stopped one that is
        not. A kill that fails leaves the flag as it was. */
    method StopOrContinue(over: bool, w: World) returns (w': World)
      requires Tracks(w)
      modifies `suspended
      ensures (old(processExited) ==> w.d().dead) ==> Tracks(w')
      ensures Later(w, w') && w'.reading == w.reading && w'.stdinWatched == w.stdinWatched
      ensures w'.d() == w.d().(dead := w'.d().dead, held := w'.d().held, breaches := w'.d().breaches)
      ensures w.d().reaped.None? && w.d().attempts == Nothing ==> w'.d().breaches == w.d().breaches
      ensures !w'.d().dead ==> suspended == over || KillFailed(w')
      ensures old(suspended) == over ==> w' == w
      ensures Burned(w, w')
    {
      assert Usable(w.cores, 0, 0);
      hide Replay, Usable, ClockAfter;
      w' := w;
      if over && !suspended {
        var errno;
        ghost var mid;
        w', errno, mid := SendKill(w, Throttle, SIGSTOP, Process);
        if errno == 0 { suspended := true; }
      } else if !over && suspended {
        var errno;
        ghost var mid;
        w', errno, mid := SendKill(w, Throttle, SIGCONT, Process);
        if errno == 0 { suspended := false; }
      }
    }

    /** Take a sample and stop or continue the child. Unless the child is gone or
        a kill failed, the flag afterwards is the comparison of the total with the
        budget, which is the true comparison if the budget fits its word. */
    method Update(cfg: Config, now: U64, w: World) returns (w': World, held: bool)
      requires Tracks(w)
      modifies `lastCpu, `lastWall, `suspended, `processExited
      ensures (old(processExited) ==> w.d().dead) ==> Tracks(w')
      ensures Later(w, w') && w'.reading == w.reading && w'.stdinWatched == w.stdinWatched
      ensures held == suspended
      ensures lastWall == now
      ensures w'.d() == w.d().(dead := w'.d().dead, held := w'.d().held, notes := w'.d().notes, breaches := w'.d().breaches)
      ensures w.d().reaped.None? && w.d().attempts == Nothing ==> w'.d().breaches == w.d().breaches
      ensures processExited != old(processExited) ==> processExited && w'.d().dead
      ensures !w'.d().dead && Wall() > 0 ==> suspended == (Cpu() > Budget(Wall(), cfg.percent)) || KillFailed(w')
      ensures !w'.d().dead && Wall() > 0 && Wall() * cfg.percent / 100 < TWO_64 ==>
                suspended == OverBudget(Cpu(), Wall(), cfg.percent) || KillFailed(w')
      ensures !w'.d().dead && Wall() == 0 ==> suspended == old(suspended)
      // the sample: one, of the latest clock reading, between the two states
      ensures Sampled(w.d().notes, w'.d().notes)
      ensures !w'.d().dead ==> w'.d().notes == WithSample(w.d().notes, w.reading, lastCpu, w.d().held)
      ensures !w'.d().dead ==> w.cpu <= lastCpu <= w'.cpu
      ensures !w'.d().dead ==> Usable(w.cores, lastCpu - w.cpu, w'.clock - w.clock)
                               && Usable(w.cores, w'.cpu - lastCpu, w'.clock - w.clock)
      ensures !w'.d().dead && old(suspended) ==> lastCpu == w.cpu
      ensures !w'.d().dead && old(suspended) && suspended ==> w'.cpu == w.cpu || KillFailed(w')
    {
      hide Replay, Usable, ClockAfter;
      var sample;
      w', sample := ReadCpu(w);
      if sample.None? {
        processExited := true;
        suspended := false;
        lastWall := now;
        return w', false;
      }
      lastCpu := sample.value;
      lastWall := now;
      ghost var read := w';
      var totalWall := Wall();
      if totalWall == 0 {
        SampleIsBetween(w, read, w');
        return w', suspended;
      }
      if totalWall * cfg.percent / 100 < TWO_64 { FittingBudgetDecides(Cpu(), totalWall, cfg.percent); }
      hide Budget;
      w' := StopOrContinue(Cpu() > Budget(totalWall, cfg.percent), w');
      SampleIsBetween(w, read, w');
      held := suspended;
    }

    /** Dropping the state lets go of a child it still holds. */
    method Drop(w: World) returns (w': World)
      requires Tracks(w)
      modifies `suspended
      ensures Later(w, w') && !w'.d().held
      ensures !(old(suspended) && !processExited) ==> w' == w
      ensures w'.d() == w.d().(dead := w'.d().dead, held := false, breaches := w'.d().breaches)
      ensures w.d().reaped.None? ==> w'.d().breaches == w.d().breaches
    {
      w' := Resume(w);
    }
  }

  /** At most one sample was taken, and nothing else noted. */
  ghost predicate Sampled(n: Notes, n': Notes) {
    && n' == n.(samples := n'.samples)
    && (n'.samples == n.samples || (n'.samples.Took? && n'.samples.before == n.samples))
  }

  lemma SampleIsBetween(w: World, read: World, w': World)
    requires Later(w, read) && Later(read, w') && Burned(w, read) && (w' == read || Burned(read, w'))
    ensures Usable(w.cores, read.cpu - w.cpu, w'.clock - w.clock) && Usable(w.cores, w'.cpu - read.cpu, w'.clock - w.clock)
  {
    UsableLonger(w.cores, read.cpu - w.cpu, read.clock - w.clock, w'.clock - w.clock);
    if w' == read {
      assert 0 <= w.cores * (w'.clock - w.clock);
    } else {
      UsableLonger(w.cores, w'.cpu - read.cpu, w'.clock - read.clock, w'.clock - w.clock);
    }
  }

  /** The latest event is a throttle signal the kernel refused. */
  predicate KillFailed(w: World) {
    var t := w.log.trace;
    t != [] && t[|t| - 1].Kill? && t[|t| - 1].who == Throttle && !t[|t| - 1].delivered
  }

  /** Start throttling, if the child still answers. */
  method Attach(now: U64, w: World) returns (w': World, state: CpuThrottleState?)
    requires !w.d().held
    ensures Later(w, w')
    ensures w'.d() == w.d().(dead := w'.d().dead, held := w'.d().held, notes := w'.d().notes)
    ensures w'.d().held <==> w.d().held && !w'.d().dead
    ensures w'.clock == ClockAfter(w.clock, w.script, 1) && w'.script == Rest(w.script)
    ensures state == null ==> w'.d().dead
    ensures state != null ==> fresh(state) && state.Tracks(w')
    ensures state != null ==> w.cpu <= state.startCpu == state.lastCpu == w'.cpu
    ensures state != null ==>
              w'.d().notes == WithSample(w.d().notes, w.reading, state.startCpu, w'.d().held)
    ensures state != null ==> state.startWall == state.lastWall == now && !state.suspended && !state.processExited
  {
    var sample;
    w', sample := ReadCpu(w);
    state := null;
    if sample.Some? {
      state := new CpuThrottleState(sample.value, now);
    }
  }
}
