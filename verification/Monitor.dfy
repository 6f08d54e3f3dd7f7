/** Supervising one child from its start to its reaping: first wait, escalation,
    and the bookkeeping that keeps the throttle out of the way. */
module Monitor {
  import opened Wrappers
  import opened TimeMath
  import opened Kernel
  import opened Throttle
  import opened Watch
  import opened WaitLoop
  import opened Wait
  import Discipline
  import Child

  const MEMORY_CHECK_NS: U64 := 100_000_000

  datatype RunConfig = RunConfig(
    timeout: Duration,
    signal: int,
    killAfter: Option<Duration>,
    foreground: bool,
    onTimeout: bool,
    heartbeat: Option<Duration>,
    stdinTimeout: Option<Duration>,
    stdinPassthrough: bool,
    memBytes: Option<U64>,
    cpuThrottle: Option<Config>)

  datatype RunResult =
    | Completed(exit: int)
    | TimedOutRun(signal: int, killed: bool, status: Option<int>, hook: bool, reason: Reason)
    | MemoryLimitRun(signal: int, killed: bool, status: Option<int>, limit: U64, actual: U64)
    | SignalForwarded(signal: int, status: Option<int>)

  /** The throttle state, if any, will not signal the child again. */
  ghost predicate Settled(t: CpuThrottleState?)
    reads t
  {
    t == null || !t.suspended || t.processExited
  }

  ghost predicate Knows(t: CpuThrottleState?, child: Child.RawChild)
    reads t, child
  {
    t != null && child.exited ==> t.processExited
  }

  /** Usable before and after a reaping, and even when waiting failed. */
  ghost predicate Attached(t: CpuThrottleState?, w: World)
    reads t
  {
    if t == null then !w.d().held else t.Tracks(w)
  }

  function Destination(foreground: bool): Target { if foreground then Process else Group }

  /** A terminating signal was attempted between the two states and refused. */
  ghost predicate Refused(w: World, w': World) {
    exists i :: |w.log.trace| <= i < |w'.log.trace| && IsTerm(w'.log.trace[i]) && !w'.log.trace[i].delivered
  }

  /** Why a supervised run can fail. */
  ghost predicate Failed(w: World, w': World, e: Error) {
    if e.SignalError? then e.errno !in {0, ESRCH} && Refused(w, w') else Caused(w, w', e)
  }

  /** A failure stays one in a longer run. */
  lemma FailedStill(w0: World, w: World, w': World, w2: World, e: Error)
    requires Later(w0, w) && Failed(w, w', e) && Later(w', w2)
    ensures Failed(w0, w2, e)
  {
    if e.SignalError? {
      var i :| |w.log.trace| <= i < |w'.log.trace| && IsTerm(w'.log.trace[i]) && !w'.log.trace[i].delivered;
      assert w2.log.trace[i] == w'.log.trace[i];
    }
  }

  /** What the last kill needed answers: the one to the process, if the group is gone. */
  function SignalAnswer(script: seq<Choice>, foreground: bool): int {
    if !foreground && KillAnswer(script) == ESRCH then KillAnswer(Rest(script)) else KillAnswer(script)
  }

  /** Signal the child: in the foreground just the process, otherwise its group,
      and the process itself if the group is gone. ESRCH counts as delivered. */
  method SendSignal(sig: int, foreground: bool, w: World) returns (w': World, r: Result<(), Error>)
    ensures Later(w, w')
    ensures w'.d() == w.d().(dead := w'.d().dead, held := w'.d().held, attempts := w'.d().attempts, breaches := w'.d().breaches)
    ensures w'.d().held <==> w.d().held && !w'.d().dead
    ensures !w.d().held && w.d().reaped.None? ==> w'.d().breaches == w.d().breaches
    ensures exists at :: w.clock <= at <= w'.clock
                         && w'.d().attempts == After(w.d().attempts, sig, Destination(foreground), at)
    ensures r.Ok? <==> SignalAnswer(w.script, foreground) in {0, ESRCH}
    ensures r.Err? ==> r.error == SignalError(SignalAnswer(w.script, foreground)) && Refused(w, w')
    ensures KillAnswer(w.script) != ESRCH ==>
              w'.clock == ClockAfter(w.clock, w.script, 1) && w'.script == Rest(w.script)
  {
    hide Replay;
    var errno;
    ghost var mid;
    w', errno, mid := SendKill(w, Supervisor, sig, Destination(foreground));
    if !foreground && errno == ESRCH {
      w', errno, mid := SendKill(w', Supervisor, sig, Fallback);
    }
    if errno == 0 || errno == ESRCH {
      r := Ok(());
    } else {
      r := Err(SignalError(errno));
      var last := |w'.log.trace| - 1;
      assert IsTerm(w'.log.trace[last]) && !w'.log.trace[last].delivered;
    }
  }

  method ResumeIfAny(t: CpuThrottleState?, w: World) returns (w': World)
    requires Attached(t, w)
    modifies if t == null then {} else {t}
    ensures Attached(t, w') && Later(w, w') && !w'.d().held && Settled(t)
    ensures w'.d() == w.d().(dead := w'.d().dead, held := false, breaches := w'.d().breaches)
    ensures w.d().reaped.None? ==> w'.d().breaches == w.d().breaches
    ensures t != null ==> t.processExited == old(t.processExited)
    ensures t == null ==> w' == w
  {
    w' := w;
    if t != null { w' := t.Resume(w); }
  }

  method MarkIfAny(t: CpuThrottleState?, ghost w: World)
    requires Attached(t, w) && !w.d().held
    modifies if t == null then {} else {t}
    ensures Attached(t, w) && Settled(t) && (t != null ==> t.processExited)
  {
    if t != null { t.MarkProcessExited(w); }
  }

  /** Nothing is left to do for the throttle; the child is tracked; the rules
      were kept and no queue is left open. */
  ghost predicate Finished(t: CpuThrottleState?, child: Child.RawChild, w: World, w': World)
    reads t, child
  {
    && Later(w, w') && child.Tracks(w') && Attached(t, w')
    && !w'.d().held && Settled(t) && Knows(t, child)
    && w'.d().kqs == w.d().kqs && w'.d().breaches == w.d().breaches && w'.d().vain == w.d().vain
  }

  /** A child that can be supervised: not reaped, and in step with the throttle. */
  ghost predicate Supervised(t: CpuThrottleState?, child: Child.RawChild, w: World)
    reads t, child
  {
    child.Tracks(w) && !child.exited && Attached(t, w) && w.timebase && w.reading <= w.clock
  }

  /** Exactly one more signal was attempted between the two states. */
  ghost predicate SentOne(sig: int, foreground: bool, w: World, w': World) {
    var h := w'.d().attempts;
    h.After? && h == After(w.d().attempts, sig, Destination(foreground), h.at) && w.clock <= h.at <= w'.clock
  }

  /** Let the child go, then signal it. */
  method ResumeAndSend(child: Child.RawChild, t: CpuThrottleState?, sig: int, foreground: bool, w: World)
      returns (w': World, r: Result<(), Error>)
    requires Supervised(t, child, w)
    modifies if t == null then {} else {t}
    ensures Supervised(t, child, w') && Finished(t, child, w, w')
    ensures w'.d() == w.d().(dead := w'.d().dead, held := false, attempts := w'.d().attempts)
    ensures SentOne(sig, foreground, w, w')
    ensures r.Err? ==> Failed(w, w', r.error)
    ensures t == null && KillAnswer(w.script) == 0 ==>
              r.Ok? && w'.clock == ClockAfter(w.clock, w.script, 1) && w'.script == Rest(w.script)
  {
    hide Replay, ClockAfter;
    w' := ResumeIfAny(t, w);
    ghost var resumed := w';
    w', r := SendSignal(sig, foreground, w');
    if r.Err? { FailedStill(w, resumed, w', w', r.error); }
  }

  /** Block until the child dies; it is not held, so it can. */
  method AwaitDeath(child: Child.RawChild, t: CpuThrottleState?, w: World)
      returns (w': World, r: Result<int, Error>)
    requires Supervised(t, child, w) && !w.d().held && Settled(t) && w.d().attempts.After?
    modifies child, if t == null then {} else {t}
    ensures Finished(t, child, w, w')
    ensures r.Err? ==> Failed(w, w', r.error)
    ensures w'.d() == w.d().(dead := w'.d().dead, reaped := w'.d().reaped, waitFailures := w'.d().waitFailures,
                             notes := w'.d().notes)
    ensures w.script == [] ==> r.Ok?
    ensures w.d().waitFailures <= w'.d().waitFailures
    ensures if r.Ok? then child.exited && w'.d().reaped == Some(r.value) else w'.d().reaped.None? && r.error.SpawnError?
  {
    hide Replay;
    var waited;
    w', waited := child.Wait(w);
    if waited.Err? {
      return w', Err(SpawnError(waited.error.errno));
    }
    MarkIfAny(t, w');
    r := Ok(waited.value);
  }

  /** A signal reached the supervisor: pass it on and wait for the child, whose
      status is reported if it could be had. */
  method Forward(child: Child.RawChild, t: CpuThrottleState?, sig: int, foreground: bool, w: World)
      returns (w': World, r: Result<RunResult, Error>)
    requires Supervised(t, child, w)
    modifies child, if t == null then {} else {t}
    ensures Finished(t, child, w, w') && SentOne(sig, foreground, w, w') && w'.d().hooks == w.d().hooks
    ensures w'.d().bytes == w.d().bytes && w'.d().farthest == w.d().farthest
    ensures r.Ok? ==> r.value == SignalForwarded(sig, w'.d().reaped)
    ensures r.Err? ==> Failed(w, w', r.error)
  {
    hide Replay;
    var sent;
    w', sent := ResumeAndSend(child, t, sig, foreground, w);
    if sent.Err? {
      return w', Err(sent.error);
    }
    var waited;
    w', waited := child.Wait(w');
    MarkIfAny(t, w');
    r := Ok(SignalForwarded(sig, if waited.Ok? then Some(waited.value) else None));
  }

  /** The grace period: no watchdog but the clock. */
  method Grace(child: Child.RawChild, t: CpuThrottleState?, pid: int, limit: Duration, signalFd: Option<int>, w: World)
      returns (w': World, r: Result<WaitResult, Error>)
    requires Supervised(t, child, w) && !w.d().held && Settled(t)
    modifies child
    ensures Later(w, w') && child.Tracks(w') && Attached(t, w') && !w'.d().held && Settled(t)
    ensures w'.timebase
    ensures child.exited <==> r.Ok? && r.value.Exited?
    ensures Undisturbed(w.d(), w'.d()) && w'.d().kqs == w.d().kqs
    ensures Meaning(DurationToNs(limit), None, None, signalFd, w, w', r)
    ensures w'.d().memory == w.d().memory
    ensures w.timebase && ReachesKevent(DurationToNs(limit), w.clock, w.script, w.d().kqs)
            && MustEnd(signalFd, w.d().dead, FirstAsked(w.script)) ==>
              Heeds(signalFd, w.d().dead, FirstAsked(w.script), Drop(w.script, 4), w.d(), w', r)
    ensures w'.d().farthest <= Max(w.d().farthest, AdvanceNs(ClockAfter(w.clock, w.script, 1), DurationToNs(limit)))
  {
    hide Replay;
    hide MaxTicks;
    ghost var start;
    w', r, start := WaitWithKqueue(child, pid, limit, None, None, null, Config(1, U64_MAX), None, signalFd, w);
  }

  /** SIGKILL and reap. */
  method KillAndReap(child: Child.RawChild, t: CpuThrottleState?, foreground: bool, w: World)
      returns (w': World, r: Result<int, Error>)
    requires Supervised(t, child, w)
    modifies child, if t == null then {} else {t}
    ensures Finished(t, child, w, w')
    ensures w'.d() == w.d().(dead := w'.d().dead, held := false, attempts := w'.d().attempts, reaped := w'.d().reaped,
                             waitFailures := w'.d().waitFailures, notes := w'.d().notes)
    ensures SentOne(SIGKILL, foreground, w, w')
    ensures r.Ok? ==> w'.d().reaped == Some(r.value)
    ensures r.Err? ==> Failed(w, w', r.error)
    ensures t == null && KillAnswer(w.script) == 0 && Rest(w.script) == [] ==> r.Ok?
  {
    hide Replay, ClockAfter;
    var sent;
    w', sent := ResumeAndSend(child, t, SIGKILL, foreground, w);
    if sent.Err? {
      return w', Err(sent.error);
    }
    ghost var killed := w';
    w', r := AwaitDeath(child, t, w');
    if r.Err? { FailedStill(w, killed, w', w', r.error); }
  }

  // ----- what the result says about the signals

  /** The only signal attempted went to the destination. */
  ghost predicate SentOnly(h: History, sig: int, to: Target) {
    h.After? && h == After(Nothing, sig, to, h.at)
  }

  /** Two signals were attempted, in this order. */
  ghost predicate SentBoth(h: History, first: int, second: int, to: Target) {
    h.After? && h == After(h.before, second, to, h.at) && SentOnly(h.before, first, to)
  }

  /** The configured signal, followed by SIGKILL exactly if the child was killed. */
  ghost predicate SentOnTimeout(h: History, sig: int, killed: bool, to: Target) {
    if killed then SentBoth(h, sig, SIGKILL, to) else SentOnly(h, sig, to)
  }

  /** When the first of one or two attempts was made. */
  ghost function FirstAt(h: History): nat
    requires h.After?
  {
    if h.before.After? then h.before.at else h.at
  }

  /** A wait can end early on the wall clock only through one of its fallbacks. */
  ghost predicate Fallbacks(d0: Digest, d: Digest) {
    d0.emptyPipes < d.emptyPipes || d0.waitFailures < d.waitFailures
  }

  /** The first signal is no earlier than the reported reason allows. */
  ghost predicate ReasonHolds(cfg: RunConfig, w: World, w': World, reason: Reason, at: nat) {
    match reason
    case WallClock => AdvanceNs(w.clock, DurationToNs(cfg.timeout)) <= at || Fallbacks(w.d(), w'.d())
    case StdinIdle => cfg.stdinTimeout.Some? && w.clock + DurationToNs(cfg.stdinTimeout.value) <= at
  }

  /** The result agrees with the trace of the whole run. */
  ghost predicate Agrees(cfg: RunConfig, w: World, w': World, r: RunResult) {
    var a, to, d := w'.d().attempts, Destination(cfg.foreground), w'.d();
    match r
    case Completed(exit) =>
      a == Nothing && d.reaped == Some(exit) && d.hooks == w.d().hooks && d.bytes == w.d().bytes
    case TimedOutRun(signal, killed, status, hook, reason) =>
      && signal == cfg.signal && d.bytes == w.d().bytes
      && d.reaped.Some? && status == d.reaped
      && SentOnTimeout(a, cfg.signal, killed, to)
      && (killed ==> cfg.killAfter.Some?
                     && (a.before.at + DurationToNs(cfg.killAfter.value) <= a.at || Fallbacks(w.d(), d) || a.at == U64_MAX))
      && hook == cfg.onTimeout
      && d.hooks == w.d().hooks + (if hook then 1 else 0)
      && ReasonHolds(cfg, w, w', reason, FirstAt(a))
    case MemoryLimitRun(signal, killed, status, limit, actual) =>
      && signal == cfg.signal
      && d.reaped.Some? && status == d.reaped
      && SentOnTimeout(a, cfg.signal, killed, to)
      && (killed ==> cfg.killAfter.Some?
                     && (a.before.at + DurationToNs(cfg.killAfter.value) <= a.at || Fallbacks(w.d(), d) || a.at == U64_MAX
                         || w.d().bytes.count < d.bytes.count))
      && (!killed ==> d.bytes == w.d().bytes)
      && cfg.memBytes == Some(limit) && limit < actual
      && w.d().memory.count < d.memory.count && d.memory.last == actual
      && d.hooks == w.d().hooks
    case SignalForwarded(signal, status) =>
      && status == d.reaped
      && Received(w.d(), d, signal)
      && (|| (SentOnly(a, signal, to) && d.hooks == w.d().hooks)
          || (SentBoth(a, cfg.signal, signal, to) && cfg.killAfter.Some?
              && d.hooks == w.d().hooks + One(cfg.onTimeout)))
  }

  /** The environment has the pipe wake the grace wait of the memory path, and is then
      quiet. */
  ghost predicate GraceHears(cfg: RunConfig, signalFd: Option<int>, w: World) {
    var rest := Rest(w.script);
    && cfg.killAfter.Some? && KillAnswer(w.script) == 0
    && ReachesKevent(DurationToNs(cfg.killAfter.value), ClockAfter(w.clock, w.script, 1), rest, w.d().kqs)
    && PipeWakes(signalFd, FirstAsked(rest))
    && !First(Rest(Drop(rest, 4))).fails && Rest(Rest(Drop(rest, 4))) == []
  }

  lemma HearsFirst(cfg: RunConfig, signalFd: Option<int>, w: World)
    ensures GraceHears(cfg, signalFd, w) ==> KillAnswer(w.script) == 0 && cfg.killAfter.Some?
  {
  }

  /** What the grace wait then comes to. */
  lemma HeardInGrace(cfg: RunConfig, signalFd: Option<int>, w: World, signalled: World, w': World,
                     r: Result<WaitResult, Error>)
    requires GraceHears(cfg, signalFd, w)
    requires signalled.clock == ClockAfter(w.clock, w.script, 1) && signalled.script == Rest(w.script)
    requires signalled.d().kqs == w.d().kqs && signalled.timebase
    requires Meaning(DurationToNs(cfg.killAfter.value), None, None, signalFd, signalled, w', r)
    requires ReachesKevent(DurationToNs(cfg.killAfter.value), signalled.clock, signalled.script, signalled.d().kqs)
             && MustEnd(signalFd, signalled.d().dead, FirstAsked(signalled.script)) ==>
               Heeds(signalFd, signalled.d().dead, FirstAsked(signalled.script), Drop(signalled.script, 4), signalled.d(), w', r)
    ensures r.Ok? && r.value.ReceivedSignal? && signalled.d().bytes.count < w'.d().bytes.count
    ensures KillAnswer(w'.script) == 0 && Rest(w'.script) == []
  {
    hide ClockAfter, ReachesKevent, Drop, DurationToNs;
  }

  /** The child is over its memory limit: signal it and, if it outlives the grace
      period or a signal cuts that short, kill it. */
  method OnMemoryLimit(child: Child.RawChild, t: CpuThrottleState?, cfg: RunConfig, pid: int, limit: U64, actual: U64,
                       signalFd: Option<int>, ghost w0: World, w: World)
      returns (w': World, r: Result<RunResult, Error>)
    requires Supervised(t, child, w) && w.d().attempts == Nothing
    requires cfg.memBytes == Some(limit) && limit < actual
    requires w0.d().memory.count < w.d().memory.count && w.d().memory.last == actual
    requires w0.d().bytes == w.d().bytes && w0.d().hooks == w.d().hooks
    requires w0.d().emptyPipes <= w.d().emptyPipes && w0.d().waitFailures <= w.d().waitFailures
    modifies child, if t == null then {} else {t}
    ensures Finished(t, child, w, w')
    ensures r.Ok? ==> Agrees(cfg, w0, w', r.value) && r.value.MemoryLimitRun? && r.value.actual == actual
    ensures w'.d().hooks == w.d().hooks
    // in the grace period only an exit spares the child; a signal does not, and such a run exists
    ensures r.Ok? && cfg.killAfter.Some? && w.d().bytes.count < w'.d().bytes.count ==> r.value.killed
    ensures t == null && GraceHears(cfg, signalFd, w) ==> r.Ok? && w.d().bytes.count < w'.d().bytes.count
    ensures cfg.killAfter.None? ==> w'.d().farthest == w.d().farthest
    ensures r.Err? ==> Failed(w, w', r.error)
  {
    hide Replay, DurationToNs, ClockAfter, ReachesKevent, Drop, Later, Heeds, MustEnd, GraceHears;
    HearsFirst(cfg, signalFd, w);
    var sent;
    w', sent := ResumeAndSend(child, t, cfg.signal, cfg.foreground, w);
    ghost var signalled := w';
    LaterMeans(w, w');
    if sent.Err? {
      return w', Err(sent.error);
    }
    ghost var waited := w';
    var killed := false;
    var status;
    if cfg.killAfter.Some? {
      var grace;
      w', grace := Grace(child, t, pid, cfg.killAfter.value, signalFd, w');
      LaterStill(w, signalled, w');
      LaterMeans(signalled, w');
      if t == null && GraceHears(cfg, signalFd, w) { HeardInGrace(cfg, signalFd, w, signalled, w', grace); }
      if grace.Err? {
        FailedStill(w, signalled, w', w', grace.error);
        return w', Err(grace.error);
      }
      waited := w';
      if grace.value.Exited? {
        MarkIfAny(t, w');
        return w', Ok(MemoryLimitRun(cfg.signal, false, Some(grace.value.status), limit, actual));
      }
      w', status := KillAndReap(child, t, cfg.foreground, w');
      killed := true;
    } else {
      w', status := AwaitDeath(child, t, w');
    }
    r := if status.Ok? then Ok(MemoryLimitRun(cfg.signal, killed, Some(status.value), limit, actual)) else Err(status.error);
    LaterStill(w, waited, w');
    LaterMeans(waited, w');
    if r.Err? { FailedStill(w, waited, w', w', r.error); }
  }

  /** After the first signal on a timeout: give the child its grace period, pass
      on a signal that interrupts it, and kill a child that outlives it. */
  method Escalate(child: Child.RawChild, t: CpuThrottleState?, cfg: RunConfig, pid: int, hook: bool, reason: Reason,
                  signalFd: Option<int>, ghost w0: World, w: World)
      returns (w': World, r: Result<RunResult, Error>)
    requires Supervised(t, child, w) && !w.d().held && Settled(t)
    requires SentOnly(w.d().attempts, cfg.signal, Destination(cfg.foreground)) && w.d().attempts.at <= w.clock
    requires w0.d().emptyPipes <= w.d().emptyPipes && w0.d().waitFailures <= w.d().waitFailures
    requires cfg.killAfter.Some? && w0.d().bytes == w.d().bytes
    modifies child, if t == null then {} else {t}
    ensures Finished(t, child, w, w') && w'.d().hooks == w.d().hooks
    ensures w'.d().attempts.After? && FirstAt(w'.d().attempts) == w.d().attempts.at
    ensures r.Ok? ==>
              match r.value
              case TimedOutRun(signal, killed, status, h, why) =>
                && signal == cfg.signal && h == hook && why == reason && w'.d().bytes == w0.d().bytes
                && w'.d().reaped.Some? && status == w'.d().reaped
                && SentOnTimeout(w'.d().attempts, cfg.signal, killed, Destination(cfg.foreground))
                && (killed ==> || w'.d().attempts.before.at + DurationToNs(cfg.killAfter.value) <= w'.d().attempts.at
                               || w'.d().attempts.at == U64_MAX
                               || Fallbacks(w0.d(), w'.d()))
              case SignalForwarded(sig, status) =>
                && status == w'.d().reaped
                && Received(w0.d(), w'.d(), sig)
                && SentBoth(w'.d().attempts, cfg.signal, sig, Destination(cfg.foreground))
              case _ => false
    ensures r.Err? ==> Failed(w, w', r.error)
  {
    hide Replay;
    var grace;
    w', grace := Grace(child, t, pid, cfg.killAfter.value, signalFd, w);
    if grace.Err? {
      return w', Err(grace.error);
    }
    if grace.value.Exited? {
      MarkIfAny(t, w');
      r := Ok(TimedOutRun(cfg.signal, false, Some(grace.value.status), hook, reason));
    } else if grace.value.ReceivedSignal? {
      w', r := Forward(child, t, grace.value.sig, cfg.foreground, w');
    } else {
      var status;
      w', status := KillAndReap(child, t, cfg.foreground, w');
      r := if status.Ok? then Ok(TimedOutRun(cfg.signal, true, Some(status.value), hook, reason)) else Err(status.error);
    }
  }

  /** Time is up: run the hook, signal the child, and see to its end. */
  method OnTimeout(child: Child.RawChild, t: CpuThrottleState?, cfg: RunConfig, pid: int, reason: Reason,
                   signalFd: Option<int>, ghost w0: World, w: World)
      returns (w': World, r: Result<RunResult, Error>)
    requires Supervised(t, child, w) && w.d().attempts == Nothing && w.d().hooks == w0.d().hooks
    requires w0.d().emptyPipes <= w.d().emptyPipes && w0.d().waitFailures <= w.d().waitFailures
    requires ReasonHolds(cfg, w0, w, reason, w.clock) && w0.d().bytes == w.d().bytes
    modifies child, if t == null then {} else {t}
    ensures Finished(t, child, w, w')
    ensures r.Ok? ==> Agrees(cfg, w0, w', r.value)
    ensures w'.d().hooks == w.d().hooks + One(cfg.onTimeout)
    ensures r.Ok? ==> (r.value.TimedOutRun? && r.value.reason == reason) || r.value.SignalForwarded?
    ensures cfg.killAfter.None? ==> w'.d().farthest == w.d().farthest
    ensures r.Err? ==> Failed(w, w', r.error)
  {
    hide Replay, Later, DurationToNs;
    w' := w;
    if cfg.onTimeout {
      ghost var mid;
      w', mid := RunHook(w);
    }
    ghost var hooked := w';
    LaterMeans(w, hooked);
    var sent;
    w', sent := ResumeAndSend(child, t, cfg.signal, cfg.foreground, w');
    LaterStill(w, hooked, w');
    LaterMeans(w, w');
    if sent.Err? {
      FailedStill(w, hooked, w', w', sent.error);
      return w', Err(sent.error);
    }
    ghost var signalled := w';
    if cfg.killAfter.Some? {
      w', r := Escalate(child, t, cfg, pid, cfg.onTimeout, reason, signalFd, w0, w');
    } else {
      var status;
      w', status := AwaitDeath(child, t, w');
      r := if status.Ok? then Ok(TimedOutRun(cfg.signal, false, Some(status.value), cfg.onTimeout, reason))
           else Err(status.error);
    }
    LaterStill(w, signalled, w');
    if r.Err? { FailedStill(w, signalled, w', w', r.error); }
  }

  // ----- the monitor

  function IdleWatch(cfg: RunConfig, start: U64): Option<StdinWatch> {
    if cfg.stdinTimeout.None? then None
    else Some(StdinWatch(DurationToNs(cfg.stdinTimeout.value), start, if cfg.stdinPassthrough then Passthrough else Consume))
  }

  /** Start the throttle if one is configured; a child that is already gone goes
      unthrottled. */
  method AttachIfAny(cfg: RunConfig, now: U64, w: World) returns (w': World, t: CpuThrottleState?)
    requires !w.d().held
    ensures Later(w, w')
    ensures w'.d() == w.d().(dead := w'.d().dead, held := w'.d().held, notes := w'.d().notes) && !w'.d().held
    ensures cfg.cpuThrottle.None? ==> t == null && w' == w
    ensures t != null ==> fresh(t) && t.lastWall == now && cfg.cpuThrottle.Some?
    ensures Coupled(t, w')
    ensures ClockAfter(w'.clock, w'.script, 1) == ClockAfter(w.clock, w.script, if cfg.cpuThrottle.Some? then 2 else 1)
  {
    w', t := w, null;
    if cfg.cpuThrottle.Some? {
      w', t := Attach(now, w);
    }
  }

  /** The environment lets the wait see at once that the child has exited. */
  ghost predicate SeesExit(cfg: RunConfig, clock: U64, script: seq<Choice>, kqs: set<int>) {
    ReachesKevent(DurationToNs(cfg.timeout), clock, script, kqs) && TimerOrExitWakes(FirstAsked(script))
  }

  /** The run has completed without a signal, or its status could not be had. */
  ghost predicate GoneQuietly(w: World, w': World, r: Result<RunResult, Error>) {
    && w'.d().attempts == Nothing
    && if r.Ok? then r.value.Completed? else w.d().waitFailures < w'.d().waitFailures
  }

  /** Every timer armed in between ends within the time limit from `start`. */
  ghost predicate PlannedFor(cfg: RunConfig, start: U64, w: World, w': World) {
    w'.d().farthest <= Max(w.d().farthest, AdvanceNs(start, DurationToNs(cfg.timeout)))
  }

  /** The first wait, and the branch its result calls for. */
  method Supervise(child: Child.RawChild, t: CpuThrottleState?, cfg: RunConfig, pid: int, start: U64,
                   signalFd: Option<int>, ghost w0: World, w: World)
      returns (w': World, r: Result<RunResult, Error>)
    requires Supervised(t, child, w) && Coupled(t, w) && w.d().attempts == Nothing && w.d().hooks == w0.d().hooks
    requires t != null ==> t.lastWall <= w.clock && cfg.cpuThrottle.Some?
    requires w0.clock <= start <= w.reading && Later(w0, w)
    requires w0.d().bytes == w.d().bytes && w0.d().memory == w.d().memory
    modifies child, if t == null then {} else {t}
    ensures Later(w, w') && child.Tracks(w') && Attached(t, w')
    ensures child.exited ==> Settled(t)
    ensures Knows(t, child)
    ensures w'.d().kqs == w.d().kqs && w'.d().breaches == w.d().breaches && w'.d().vain == w.d().vain
    ensures r.Ok? ==> Agrees(cfg, w0, w', r.value)
    ensures r.Err? ==> Failed(w, w', r.error)
    ensures r.Ok? && !r.value.SignalForwarded? ==> child.exited
    ensures cfg.killAfter.None? ==> PlannedFor(cfg, ClockAfter(w.clock, w.script, 1), w, w')
    ensures w'.d().hooks <= w.d().hooks + 1
    ensures cfg.stdinTimeout.None? && w.d().dead && SeesExit(cfg, w.clock, w.script, w.d().kqs) ==> GoneQuietly(w, w', r)
  {
    hide Replay, MaxTicks, DurationToNs, ClockAfter, ReachesKevent, Drop, Later;
    var waited;
    ghost var begun;
    LaterMeans(w0, w);
    var config := if cfg.cpuThrottle.Some? then cfg.cpuThrottle.value else Config(1, U64_MAX);
    var memory := if cfg.memBytes.Some? then Some(MemoryLimit(cfg.memBytes.value, MEMORY_CHECK_NS)) else None;
    var heartbeat := if cfg.heartbeat.Some? then Some(DurationToNs(cfg.heartbeat.value)) else None;
    w', waited, begun :=
      WaitWithKqueue(child, pid, cfg.timeout, heartbeat, IdleWatch(cfg, start), t, config, memory, signalFd, w);
    LaterMeans(w, w');
    ghost var watched := w';
    if waited.Err? {
      return w', Err(waited.error);
    }
    match waited.value {
    case Exited(status) =>
      MarkIfAny(t, w');
      return w', Ok(Completed(status));
    case ReceivedSignal(sig) =>
      w', r := Forward(child, t, sig, cfg.foreground, w');
    case MemoryLimitExceeded(limit, actual) =>
      w', r := OnMemoryLimit(child, t, cfg, pid, limit, actual, signalFd, w0, w');
    case TimedOut(reason) =>
      w', r := OnTimeout(child, t, cfg, pid, reason, signalFd, w0, w');
    }
    LaterStill(w, watched, w');
    if r.Err? { FailedStill(w, watched, w', w', r.error); }
  }

  /** Supervise a fresh child to the end. However the environment behaves and
      whichever way this returns, the rules are kept, the child is not left
      stopped, and the result agrees with the signals in the trace. */
  method MonitorWithTimeout(child: Child.RawChild, cfg: RunConfig, pid: int, signalFd: Option<int>, w: World)
      returns (w': World, r: Result<RunResult, Error>)
    requires child.Tracks(w) && !child.exited && !w.d().held && w.d().attempts == Nothing && w.reading <= w.clock
    modifies child
    ensures Discipline.Disciplined(w.log.trace) ==> Discipline.Disciplined(w'.log.trace)
    ensures Discipline.NoWaitInVain(w.log.trace) ==> Discipline.NoWaitInVain(w'.log.trace)
    ensures !Discipline.HeldAt(w'.log.trace, |w'.log.trace|)
    ensures child.Tracks(w') && w'.d().kqs == w.d().kqs
    ensures r.Ok? ==> Agrees(cfg, w, w', r.value)
    ensures r.Ok? && !r.value.SignalForwarded? ==> child.exited
    ensures r.Err? ==> Failed(w, w', r.error)
    // without a grace period no timer runs past the time limit, counted from the first wait
    ensures cfg.killAfter.None? ==> PlannedFor(cfg, ClockAfter(w.clock, w.script, if cfg.cpuThrottle.Some? then 3 else 2), w, w')
    ensures w'.d().hooks <= w.d().hooks + 1
    // a child that has exited before the wait is not signalled, if the wait sees it at once
    ensures w.timebase && cfg.cpuThrottle.None? && cfg.stdinTimeout.None? && w.d().dead ==>
              SeesExit(cfg, ClockAfter(w.clock, w.script, 1), Rest(w.script), w.d().kqs) ==>
                GoneQuietly(w, w', r)
  {
    hide Replay, Later;
    Discipline.DigestCountsBreaches(w.log.trace);
    Discipline.VainMeans(w.log.trace);
    var start;
    w', start := ReadClock(w);
    LaterMeans(w, w');
    if start.None? {
      r := Err(Timebase);
    } else {
      var t;
      ghost var timed := w';
      w', t := AttachIfAny(cfg, start.value, w');
      LaterStill(w, timed, w');
      LaterMeans(timed, w');
      ghost var attached := w';
      w', r := Supervise(child, t, cfg, pid, start.value, signalFd, w, w');
      LaterMeans(attached, w');
      if t != null {
        w' := t.Drop(w');
      }
    }
    Discipline.DigestCountsBreaches(w'.log.trace);
    Discipline.VainMeans(w'.log.trace);
    Discipline.HeldMeans(w'.log.trace);
  }

  /** Run a spawned child. A limit of zero means none: no timer, no signal, no hook,
      just the wait; that is the one wait that may last for ever. */
  method RunCommand(child: Child.RawChild, cfg: RunConfig, pid: int, signalFd: Option<int>, w: World)
      returns (w': World, r: Result<RunResult, Error>)
    requires child.Tracks(w) && !child.exited && !w.d().held && w.d().attempts == Nothing && w.reading <= w.clock
    modifies child
    ensures Discipline.Disciplined(w.log.trace) ==> Discipline.Disciplined(w'.log.trace)
    ensures cfg.timeout != ZERO && Discipline.NoWaitInVain(w.log.trace) ==> Discipline.NoWaitInVain(w'.log.trace)
    ensures child.Tracks(w') && !w'.d().held && w'.d().kqs == w.d().kqs
    ensures r.Ok? ==> Agrees(cfg, w, w', r.value)
    ensures r.Err? ==> Failed(w, w', r.error)
    ensures w'.d().hooks <= w.d().hooks + 1
    ensures cfg.timeout != ZERO && cfg.killAfter.None? ==>
              PlannedFor(cfg, ClockAfter(w.clock, w.script, if cfg.cpuThrottle.Some? then 3 else 2), w, w')
    ensures cfg.timeout == ZERO ==>
              && w'.d().attempts == Nothing && w'.d().hooks == w.d().hooks
              && w'.d().farthest == w.d().farthest && w'.d().ticks == w.d().ticks
              && (r.Ok? ==> r.value.Completed?)
  {
    hide Replay, ClockAfter, DurationToNs;
    Discipline.DigestCountsBreaches(w.log.trace);
    if cfg.timeout == ZERO {
      var waited;
      w', waited := child.Wait(w);
      r := if waited.Ok? then Ok(Completed(waited.value)) else Err(SpawnError(waited.error.errno));
      Discipline.DigestCountsBreaches(w'.log.trace);
    } else {
      w', r := MonitorWithTimeout(child, cfg, pid, signalFd, w);
      Discipline.HeldMeans(w'.log.trace);
    }
  }

  /** A script for the memory path: the signal is sent, the grace wait opens a queue,
      the pipe wakes it, and the byte is SIGTERM's. */
  function GraceScript(): seq<Choice> {
    [QUIET, QUIET, QUIET.(fd := 3), QUIET, QUIET.(wake := WakeEvent(Read, 5, false, false, 0)), QUIET,
     QUIET.(bytes := SIGTERM)]
  }

  function EmptyLog(): Log { LogOf([], INITIAL) }

  lemma GraceScriptIsHeard(cfg: RunConfig, w: World)
    requires w.clock == 0 && w.script == GraceScript() && w.d().kqs == {}
    requires cfg.killAfter == Some(Span(1, 0))
    ensures GraceHears(cfg, Some(5), w)
  {
    var s := w.script;
    var s1 := Rest(s);
    var s2, s3 := Rest(s1), Rest(Rest(s1));
    var s4, s5 := Rest(s3), Rest(Rest(s3));
    var s6 := Rest(s5);
    assert s1 == s[1..] && s2 == s[2..] && s3 == s[3..] && s4 == s[4..] && s5 == s[5..] && s6 == s[6..];
    assert Drop(s1, 3) == s4 by { assert Drop(s2, 2) == Drop(s3, 1) == Drop(s4, 0); }
    assert Drop(s1, 4) == s5 by { assert Drop(s2, 3) == Drop(s3, 2) == Drop(s4, 1) == Drop(s5, 0); }
    assert ClockAfter(0, s, 1) == ClockAfter(1, s1, 0) == 1;
    assert ClockAfter(1, s1, 1) == ClockAfter(2, s2, 0) == 2;
    assert ClockAfter(1, s1, 3) == ClockAfter(2, s2, 2) == ClockAfter(3, s3, 1) == ClockAfter(4, s4, 0) == 4;
  }

  /** A run of the memory path in which a SIGTERM arrives in the grace period: it is
      read, and what the child gets is SIGKILL. */
  method ASignalInTheGracePeriodKills() returns (w: World, w': World, r: Result<RunResult, Error>)
    ensures w.d().attempts == Nothing && w.d().bytes.count < w'.d().bytes.count
    ensures SentBoth(w'.d().attempts, 1, SIGKILL, Group)
    ensures r.Ok? && r.value.MemoryLimitRun? && r.value.killed
  {
    hide Replay;
    var cfg := RunConfig(Span(60, 0), 1, Some(Span(1, 0)), false, false, None, None, false, Some(100), None);
    w := World(0, 0, 0, true, false, 1, false, EmptyLog(), GraceScript());
    var sampled := Emit(w, MemSample(200));
    var child := new Child.RawChild();
    GraceScriptIsHeard(cfg, sampled);
    w', r := OnMemoryLimit(child, null, cfg, 77, 100, 200, Some(5), w, sampled);
  }
}
