/** The throttle in closed loop: the samples of a whole run, and how far the
    processor time they show can be from the configured share. */
module Convergence {
  import opened TimeMath
  import opened Kernel
  import opened Throttle

  /** Cumulative wall and processor time at a sample, and whether the controller
      left the child held. */
  datatype Reading = Reading(wall: nat, cpu: nat, held: bool)

  /** The controller's part: it starts with a running child, and each later
      sample leaves the child held exactly when it is over budget. */
  ghost predicate Controlled(run: seq<Reading>, percent: nat) {
    && run != []
    && run[0] == Reading(0, 0, false)
    && forall k :: 1 <= k < |run| ==> (run[k].held <==> OverBudget(run[k].cpu, run[k].wall, percent))
  }

  /** A child that stays held between two samples burns nothing. */
  ghost predicate IdleWhileHeld(run: seq<Reading>) {
    forall k :: 1 <= k < |run| - 1 && run[k - 1].held && run[k].held ==> run[k + 1].cpu == run[k].cpu
  }

  /** Samples in order, at most `gap` apart. */
  ghost predicate Within(run: seq<Reading>, gap: nat) {
    forall k :: 0 <= k < |run| - 1 ==> run[k].wall <= run[k + 1].wall <= run[k].wall + gap
  }

  /** What `cores` processors allow, if each sample is over `lag` after its clock
      reading: a running child burns from one sample to the end of the next, and one
      left held only until its stop took effect. */
  ghost predicate Burns(run: seq<Reading>, cores: nat, lag: nat) {
    forall k :: 0 <= k < |run| - 1 ==> Burst(run[k], run[k + 1], cores, lag)
  }

  ghost predicate Burst(a: Reading, b: Reading, cores: nat, lag: nat) {
    Usable(cores, b.cpu - a.cpu, if a.held then lag else b.wall - a.wall + lag)
  }

  /** The child, while running, uses at least the configured share. */
  ghost predicate Hungry(run: seq<Reading>, percent: nat) {
    forall k :: 0 <= k < |run| - 1 && !run[k].held ==>
      100 * (run[k + 1].cpu - run[k].cpu) >= percent * (run[k + 1].wall - run[k].wall)
  }

  function Debt(r: Reading, percent: nat): int { 100 * r.cpu - percent * r.wall }

  lemma MulMono(a: nat, x: nat, y: nat)
    requires x <= y
    ensures a * x <= a * y
  {
  }

  /** One sample further, the debt is at most the running burst plus the lag of a
      fresh stop; a child held twice in a row only works its debt off. */
  lemma {:induction false} DebtBoundedAbove(run: seq<Reading>, percent: nat, gap: nat, cores: nat, lag: nat, k: nat)
    requires Controlled(run, percent) && IdleWhileHeld(run) && Within(run, gap) && Burns(run, cores, lag)
    requires k < |run|
    ensures Debt(run[k], percent) <= 100 * (cores * (gap + lag) + cores * lag)
    ensures run[k].held && k > 0 && !run[k - 1].held ==> Debt(run[k], percent) <= 100 * (cores * (gap + lag))
  {
    assert 0 <= cores * (gap + lag) && 0 <= cores * lag;
    if k > 0 {
      DebtBoundedAbove(run, percent, gap, cores, lag, k - 1);
      var a, b := run[k - 1], run[k];
      assert Burst(a, b, cores, lag);
      MulMono(percent, a.wall, b.wall);
      if !a.held {
        assert Debt(a, percent) <= 0;
        assert percent * 0 == 0;
        MulMono(cores, b.wall - a.wall + lag, gap + lag);
      } else if k > 1 && run[k - 2].held {
        assert b.cpu == a.cpu;
      }
    }
  }

  /** A hungry child is never left more than one gap's worth below its share. */
  lemma {:induction false} DebtBoundedBelow(run: seq<Reading>, percent: nat, gap: nat, cores: nat, lag: nat, k: nat)
    requires Controlled(run, percent) && Within(run, gap) && Burns(run, cores, lag) && Hungry(run, percent)
    requires k < |run|
    ensures Debt(run[k], percent) >= -(percent * gap)
  {
    assert percent * 0 == 0 && 0 <= percent * gap;
    if k > 0 {
      DebtBoundedBelow(run, percent, gap, cores, lag, k - 1);
      var a, b := run[k - 1], run[k];
      assert Burst(a, b, cores, lag);
      assert percent * (b.wall - a.wall) == percent * b.wall - percent * a.wall;
      if a.held {
        assert Debt(a, percent) > 0;
        MulMono(percent, b.wall - a.wall, gap);
      }
    }
  }

  /** The largest distance between the debt and zero. */
  function Slack(percent: nat, gap: nat, cores: nat, lag: nat): nat {
    Max(100 * (cores * (gap + lag) + cores * lag), percent * gap)
  }

  /** Convergence. After n times the slack, the share used is within 1/n of a
      percent point of the target, in both directions, at every later sample. */
  lemma ShareConverges(run: seq<Reading>, percent: nat, gap: nat, cores: nat, lag: nat, n: nat, k: nat)
    requires Controlled(run, percent) && IdleWhileHeld(run) && Within(run, gap) && Burns(run, cores, lag)
    requires Hungry(run, percent)
    requires k < |run| && run[k].wall >= n * Slack(percent, gap, cores, lag)
    ensures -(run[k].wall as int) <= n * Debt(run[k], percent) <= run[k].wall
  {
    DebtBoundedAbove(run, percent, gap, cores, lag, k);
    DebtBoundedBelow(run, percent, gap, cores, lag, k);
    var debt, slack := Debt(run[k], percent), Slack(percent, gap, cores, lag);
    assert -slack <= debt <= slack;
    if debt >= 0 {
      MulMono(n, debt, slack);
    } else {
      MulMono(n, -debt, slack);
      assert n * -debt == -(n * debt);
    }
  }

  // ----- the runs the controller makes

  function Less(a: nat, b: nat): nat { if a < b then 0 else a - b }

  /** The run a trace shows: its samples since `from`, each with the flag that was
      found by the next one, and the last with the flag as it is now. */
  function RunOf(from: Samples, s: Samples, held: bool, startWall: nat, startCpu: nat): (run: seq<Reading>)
    ensures run != [] && run[|run| - 1].held == held
    decreases s
  {
    if s == from || s == NoSample then [Reading(0, 0, held)]
    else
      RunOf(from, s.before, s.held, startWall, startCpu)
      + [Reading(Less(s.at, startWall), Less(s.cpu, startCpu), held)]
  }

  function Depth(s: Samples): nat {
    match s
    case NoSample => 0
    case Took(before, _, _, _) => Depth(before) + 1
  }

  /** The controller can still be trusted: the child lives, time has passed, the
      budget fits its word, the last kill was not refused, and the sample took no
      longer than `lag`. */
  ghost predicate Clean(t: CpuThrottleState, cfg: Config, lag: nat, w: World)
    reads t
  {
    && !w.d().dead
    && t.Wall() > 0
    && t.Wall() * cfg.percent / 100 < TWO_64
    && !KillFailed(w)
    && w.clock <= w.reading + lag
  }

  /** What a run shows that went wrong at its last sample: all but that sample, which was
      taken unless the child had died. */
  ghost predicate ShownBefore(run: seq<Reading>, from: Samples, t: CpuThrottleState, w: World)
  {
    var s := w.d().notes.samples;
    run != [] &&
    var held := run[|run| - 1].held;
    || (w.d().dead && run == RunOf(from, s, held, t.startWall, t.startCpu))
    || (Depth(from) < Depth(s) && run == RunOf(from, s.before, held, t.startWall, t.startCpu))
  }

  /** All that is proved of the runs the controller makes. */
  ghost predicate Regular(run: seq<Reading>, percent: nat, cores: nat, lag: nat) {
    && Controlled(run, percent) && IdleWhileHeld(run) && Burns(run, cores, lag)
    && (forall k :: 0 <= k < |run| - 1 ==> run[k].wall <= run[k + 1].wall)
  }

  lemma RegularGrows(run: seq<Reading>, next: Reading, percent: nat, cores: nat, lag: nat)
    requires Regular(run, percent, cores, lag)
    requires next.held <==> OverBudget(next.cpu, next.wall, percent)
    requires run[|run| - 1].wall <= next.wall && Burst(run[|run| - 1], next, cores, lag)
    requires |run| > 1 && run[|run| - 2].held && run[|run| - 1].held ==> next.cpu == run[|run| - 1].cpu
    ensures Regular(run + [next], percent, cores, lag)
  {
    hide OverBudget, Burst;
    var longer := run + [next];
    assert forall k :: 0 <= k < |run| ==> longer[k] == run[k];
  }

  lemma RunOfGrows(from: Samples, s: Samples, held: bool, at: nat, cpu: nat, next: bool, startWall: nat, startCpu: nat)
    requires Depth(from) <= Depth(s)
    ensures RunOf(from, Took(s, at, cpu, held), next, startWall, startCpu)
            == RunOf(from, s, held, startWall, startCpu) + [Reading(Less(at, startWall), Less(cpu, startCpu), next)]
  {
  }

  /** Where the loop stands after a clean sample. */
  ghost predicate Steady(t: CpuThrottleState, run: seq<Reading>, from: Samples, lag: nat, cores: nat, w: World)
    reads t
  {
    && t.Tracks(w) && !w.d().dead && !t.processExited
    && t.startWall <= t.lastWall <= w.clock && t.startCpu <= t.lastCpu <= w.cpu
    && run == RunOf(from, w.d().notes.samples, t.suspended, t.startWall, t.startCpu)
    && Depth(from) <= Depth(w.d().notes.samples)
    && run[|run| - 1] == Reading(t.Wall(), t.Cpu(), t.suspended)
    && Usable(cores, w.cpu - t.lastCpu, w.clock - t.lastWall)
    && (t.suspended ==> Usable(cores, w.cpu - t.lastCpu, lag))
    && (|run| > 1 && run[|run| - 2].held && run[|run| - 1].held ==> w.cpu == t.lastCpu)
  }

  /** One more sample: the run gains a reading, or stays and the sample is not clean. */
  method OneMore(t: CpuThrottleState, cfg: Config, lag: nat, run: seq<Reading>, ghost from: Samples, w: World)
      returns (w': World, run': seq<Reading>, clean: bool)
    requires Steady(t, run, from, lag, w.cores, w) && Regular(run, cfg.percent, w.cores, lag)
    requires w.timebase && w.d().attempts == Nothing && w.d().reaped.None?
    modifies t
    ensures w'.timebase && w'.d().attempts == Nothing && w'.d().reaped.None? && w'.d().breaches == w.d().breaches
    ensures w'.cores == w.cores && Regular(run', cfg.percent, w.cores, lag)
    ensures clean ==> |run'| == |run| + 1 && Steady(t, run', from, lag, w.cores, w')
    ensures !clean ==> run' == run && !Clean(t, cfg, lag, w') && ShownBefore(run, from, t, w')
  {
    hide Replay, Usable, Regular, RunOf, Clean, OverBudget;
    ghost var cpu, wall, held := t.lastCpu, t.lastWall, t.suspended;
    w', clean := SampleOnce(t, cfg, lag, w);
    run' := run;
    if clean {
      var next := Reading(t.Wall(), t.Cpu(), t.suspended);
      NextBurst(w.cores, lag, held, cpu, wall, w, t.lastCpu, t.lastWall);
      RegularGrows(run, next, cfg.percent, w.cores, lag);
      RunOfGrows(from, w.d().notes.samples, held, t.lastWall, t.lastCpu, t.suspended, t.startWall, t.startCpu);
      run' := run + [next];
    }
  }

  /** Sampling the child `count` times, at whatever moments the environment
      chooses, leaves a trace whose run is controlled, in which a held child burns
      nothing and a running one no more than the processors allow; it is cut short
      only by a sample that is not clean. */
  method Regulate(t: CpuThrottleState, cfg: Config, count: nat, lag: nat, w: World)
      returns (w': World, run: seq<Reading>, clean: bool)
    requires t.Tracks(w) && w.timebase && w.d().attempts == Nothing && w.d().reaped.None?
    requires !t.suspended && !t.processExited && !w.d().dead
    requires t.lastWall == t.startWall && t.lastCpu == t.startCpu && t.startWall <= w.clock && t.startCpu <= w.cpu
    requires Usable(w.cores, w.cpu - t.startCpu, w.clock - t.startWall)
    modifies t
    ensures w'.d().breaches == w.d().breaches
    // the run is what the trace shows
    ensures clean ==> |run| == count + 1
                      && run == RunOf(w.d().notes.samples, w'.d().notes.samples, w'.d().held, t.startWall, t.startCpu)
    ensures !clean ==> |run| <= count && !Clean(t, cfg, lag, w') && ShownBefore(run, w.d().notes.samples, t, w')
    ensures Regular(run, cfg.percent, w.cores, lag)
  {
    w', run, clean := w, [Reading(0, 0, false)], true;
    ghost var from := w.d().notes.samples;
    assert Regular(run, cfg.percent, w.cores, lag) && Steady(t, run, from, lag, w.cores, w);
    hide Replay, Usable, Regular, RunOf, Clean, ShownBefore;
    while clean && |run| <= count
      invariant w'.timebase && w'.d().attempts == Nothing && w'.d().reaped.None? && w'.d().breaches == w.d().breaches
      invariant 1 <= |run| <= count + 1 && w'.cores == w.cores && Regular(run, cfg.percent, w.cores, lag)
      invariant clean ==> Steady(t, run, from, lag, w.cores, w')
      invariant !clean ==> |run| <= count && !Clean(t, cfg, lag, w') && ShownBefore(run, from, t, w')
      decreases clean, count + 1 - |run|
    {
      w', run, clean := OneMore(t, cfg, lag, run, from, w');
    }
  }

  /** What was burned before a sample's turn and in it makes the burst between the
      last sample and this one. */
  lemma NextBurst(cores: nat, lag: nat, held: bool, cpu: nat, wall: nat, before: World, nextCpu: nat, nextWall: nat)
    requires Usable(cores, before.cpu - cpu, before.clock - wall)
    requires Usable(cores, nextCpu - before.cpu, nextWall + lag - before.clock)
    requires held ==> Usable(cores, before.cpu - cpu, lag) && nextCpu == before.cpu
    ensures Usable(cores, nextCpu - cpu, if held then lag else nextWall - wall + lag)
  {
    UsableSum(cores, before.cpu - cpu, before.clock - wall, nextCpu - before.cpu, nextWall + lag - before.clock);
  }

  /** One turn of the loop: read the clock, then update. */
  method SampleOnce(t: CpuThrottleState, cfg: Config, lag: nat, w: World) returns (w': World, clean: bool)
    requires t.Tracks(w) && w.timebase && w.d().attempts == Nothing && w.d().reaped.None?
    requires !w.d().dead && !t.processExited
    requires t.startWall <= w.clock && t.startCpu <= t.lastCpu <= w.cpu
    modifies t
    ensures w'.timebase && w'.d().attempts == Nothing && w'.d().reaped.None? && w'.d().breaches == w.d().breaches
    ensures w'.cores == w.cores
    ensures clean <==> Clean(t, cfg, lag, w')
    ensures clean ==> t.Tracks(w') && !w'.d().dead && !t.processExited
    ensures clean ==> t.startWall <= w.clock <= t.lastWall <= w'.clock && t.startCpu <= t.lastCpu <= w'.cpu
    ensures clean ==> (t.suspended <==> OverBudget(t.Cpu(), t.Wall(), cfg.percent))
    ensures clean && old(t.suspended) ==> t.lastCpu == w.cpu
    ensures clean && old(t.suspended) && t.suspended ==> w'.cpu == t.lastCpu
    // what the trace gains, and what was burned
    ensures Sampled(w.d().notes, w'.d().notes)
    ensures !w'.d().dead ==> w'.d().notes == WithSample(w.d().notes, t.lastWall, t.lastCpu, old(t.suspended))
    ensures clean ==> Usable(w.cores, t.lastCpu - w.cpu, t.lastWall + lag - w.clock)
    ensures clean ==> Usable(w.cores, w'.cpu - t.lastCpu, w'.clock - t.lastWall) && Usable(w.cores, w'.cpu - t.lastCpu, lag)
  {
    hide Replay, Usable, ClockAfter;
    var now;
    w', now := ReadClock(w);
    ghost var read := w';
    var held;
    w', held := t.Update(cfg, now.value, w');
    clean := !w'.d().dead && t.Wall() > 0 && t.Wall() * cfg.percent / 100 < TWO_64 && !KillFailed(w')
             && w'.clock <= w'.reading + lag;
    if clean {
      UsableSum(w.cores, read.cpu - w.cpu, read.clock - w.clock, t.lastCpu - read.cpu, w'.clock - read.clock);
      UsableLonger(w.cores, t.lastCpu - w.cpu, w'.clock - w.clock, t.lastWall + lag - w.clock);
      UsableLonger(w.cores, w'.cpu - t.lastCpu, w'.clock - t.lastWall, lag);
    }
  }
}
