/** Running the on-timeout hook: a second, simpler wait for the hook's own
    process, with a time limit. The world here is the hook's. */
module Hook {
  import opened Wrappers
  import opened TimeMath
  import opened Kernel
  import Discipline
  import Child

  datatype HookWait = Exited(status: int) | TimedOut | Error(errno: int)

  datatype HookResult = HookResult(ran: bool, exitCode: Option<int>, timedOut: bool)

  function Changes(pid: int, delay: U64): seq<Change> {
    [Change(Proc, pid, Add, 0), Change(Timer, 2, Add, Min(delay, MAX_TIMER_NS))]
  }

  lemma NothingRead(pid: int, delay: U64)
    ensures forall ident :: !Mentions(Changes(pid, delay), ident)
    ensures forall watched :: ApplyStdin(Changes(pid, delay), watched) == watched
  {
    var c := Changes(pid, delay);
    assert forall i :: 0 <= i < |c| ==> c[i].filter != Read;
    forall watched ensures ApplyStdin(c, watched) == watched {
      assert c[1..] == [c[1]] && c[1..][1..] == [];
      assert ApplyStdin(c[1..], watched) == ApplyStdin(c[1..][1..], watched);
    }
  }

  /** The queue is closed and the child is as the result says. */
  ghost predicate Left(child: Child.RawChild, w: World, w': World, r: HookWait)
    reads child
  {
    && Later(w, w') && child.Tracks(w') && !w'.d().held
    && w'.d().kqs == w.d().kqs && w'.d().breaches == w.d().breaches && w'.d().vain == w.d().vain
    && w'.d().attempts == w.d().attempts
    && (child.exited <==> r.Exited?)
    && (r.Exited? ==> w'.d().reaped == Some(r.status))
    && (r.Error? ==> Trouble(w, w'))
  }

  /** The queue was in trouble, or the hook could not be waited for. */
  ghost predicate Trouble(w: World, w': World) {
    w.d().faults < w'.d().faults || w.d().waitFailures < w'.d().waitFailures
  }

  /** What the kernel reports says that the hook is gone. */
  predicate Gone(wake: Wake) {
    match wake
    case WakeError(errno) => errno == ESRCH
    case WakeEvent(filter, _, _, error, data) => if error then data == ESRCH else filter == Proc
  }

  /** Reap a hook the kernel has reported gone. */
  method Reap(child: Child.RawChild, tryFirst: bool, w: World) returns (w': World, r: HookWait)
    requires child.Tracks(w) && !child.exited && !w.d().held && w.d().dead
    modifies child
    ensures Left(child, w, w', r) && !r.TimedOut? && w'.d().farthest == w.d().farthest
  {
    hide Replay;
    w' := w;
    if tryFirst {
      var tried;
      w', tried := child.TryWait(w');
      if tried.Err? {
        return w', Error(tried.error.errno);
      }
      if tried.value.Some? {
        return w', Exited(tried.value.value);
      }
    }
    var waited;
    w', waited := child.Wait(w');
    r := if waited.Ok? then Exited(waited.value) else Error(waited.error.errno);
  }

  /** Close the queue and act on what the kernel reported. */
  method Conclude(child: Child.RawChild, kq: int, wake: Wake, w: World) returns (w': World, r: HookWait)
    requires child.Tracks(w) && !child.exited && !w.d().held && kq in w.d().kqs
    requires Gone(wake) ==> w.d().dead
    modifies child
    ensures Later(w, w') && child.Tracks(w') && !w'.d().held
    ensures w'.d().kqs == w.d().kqs - {kq} && w'.d().breaches == w.d().breaches && w'.d().attempts == w.d().attempts
    ensures child.exited <==> r.Exited?
    ensures r.Exited? ==> w'.d().reaped == Some(r.status)
    ensures w'.d().vain == w.d().vain && w'.d().farthest == w.d().farthest
    ensures r.TimedOut? ==> wake.WakeEvent? && !wake.error && wake.filter != Proc
    ensures r.Error? ==> Trouble(w, w') || (!Gone(wake) && (wake.WakeError? || wake.error))
  {
    hide Replay;
    ghost var mid;
    w', mid := CloseKqueue(w, kq);
    if wake.WakeError? {
      if wake.errno == ESRCH {
        w', r := Reap(child, true, w');
      } else {
        r := Error(wake.errno);
      }
    } else if wake.error {
      if wake.data == ESRCH {
        w', r := Reap(child, false, w');
      } else {
        r := Error(wake.data);
      }
    } else if wake.filter == Proc {
      w', r := Reap(child, false, w');
    } else {
      r := TimedOut;
    }
  }

  /** Block until the time limit or an event; interrupted calls are retried with
      the remaining time. None means the limit was seen to have passed. */
  method BlockForHook(ghost child: Child.RawChild, pid: int, deadline: U64, w: World)
      returns (w': World, wake: Option<Wake>)
    requires child.Tracks(w) && !child.exited && !w.d().held && !w.stdinWatched
    requires deadline <= w.clock + MAX_TIMER_NS
    ensures Later(w, w') && child.Tracks(w') && !w'.d().held
    ensures w'.d() == w.d().(dead := w'.d().dead, farthest := w'.d().farthest, ticks := w'.d().ticks, faults := w'.d().faults,
                             notes := w'.d().notes)
    ensures w'.d().farthest <= Max(w.d().farthest, deadline)
    ensures wake.Some? && Gone(wake.value) ==> w'.d().dead
    ensures wake.Some? && !Gone(wake.value) && (wake.value.WakeError? || wake.value.error) ==> w.d().faults < w'.d().faults
    ensures wake.None? || (wake.value.WakeEvent? && !wake.value.error && wake.value.filter != Proc) ==>
              deadline <= w'.clock || !w.timebase
  {
    hide Replay;
    w' := w;
    while true
      invariant Later(w, w') && !w'.d().held && !w'.stdinWatched
      invariant w'.d().farthest <= Max(w.d().farthest, deadline)
      invariant w'.d() == w.d().(dead := w'.d().dead, farthest := w'.d().farthest, ticks := w'.d().ticks, faults := w'.d().faults,
                             notes := w'.d().notes)
      decreases |w'.script|, if w'.clock < deadline then deadline - w'.clock else 0
    {
      var reading;
      w', reading := ReadClock(w');
      var now := if reading.Some? then reading.value else deadline;
      if DeadlineReached(now, deadline) {
        return w', None;
      }
      var delay := RemainingNs(now, deadline);
      NothingRead(pid, delay);
      var e;
      ghost var mid;
      w', e, mid := Kevent(w', Changes(pid, delay), Min(delay, MAX_TIMER_NS));
      if e != WakeError(EINTR) {
        return w', Some(e);
      }
    }
  }

  /** Wait for the hook. With the timebase known, a timeout is never early. */
  method WaitForHook(child: Child.RawChild, pid: int, timeout: Duration, w: World)
      returns (w': World, r: HookWait)
    requires child.Tracks(w) && !child.exited && !w.d().held
    modifies child
    ensures Left(child, w, w', r)
    ensures r.TimedOut? && w.timebase ==> AdvanceNs(w.clock, DurationToNs(timeout)) <= w'.clock
    ensures w'.d().farthest <= Max(w.d().farthest, AdvanceNs(ClockAfter(w.clock, w.script, 1), DurationToNs(timeout)))
  {
    hide Replay, DurationToNs, ClockAfter, Gone, Later;
    var reading, kq, wake;
    ghost var mid;
    w', reading := ReadClock(w);
    ghost var timed := w';
    LaterMeans(w, timed);
    var start := if reading.Some? then reading.value else 0;
    var deadline := AdvanceNs(start, DurationToNs(timeout));
    w', kq, mid := OpenKqueue(w');
    LaterStill(w, timed, w');
    LaterMeans(w, w');
    ghost var watched := w';
    if kq.None? {
      return w', Error(0);
    }
    OpenThenClosed(mid.kqs, kq.value);
    w', wake := BlockForHook(child, pid, deadline, w');
    LaterStill(w, watched, w');
    LaterMeans(w, w');
    ghost var woken := w';
    if wake.None? {
      w', mid := CloseKqueue(w', kq.value);
      r := TimedOut;
    } else {
      w', r := Conclude(child, kq.value, wake.value, w');
    }
    LaterStill(w, woken, w');
    LaterMeans(woken, w');
  }

  /** Run a spawned hook: a hook that overstays is killed, with its group, and
      waited for. Whatever happens, its queue is closed and it is not signalled
      after it has been reaped. */
  method RunSpawnedHook(child: Child.RawChild, pid: int, limit: Duration, w: World) returns (w': World, r: HookResult)
    requires child.Tracks(w) && !child.exited && !w.d().held && w.d().attempts == Nothing
    modifies child
    ensures Discipline.Disciplined(w.log.trace) ==> Discipline.Disciplined(w'.log.trace)
    ensures Discipline.NoWaitInVain(w.log.trace) ==> Discipline.NoWaitInVain(w'.log.trace)
    ensures w'.d().kqs == w.d().kqs && child.Tracks(w') && r.ran
    ensures r.timedOut <==> w'.d().attempts.After?
    ensures r.timedOut ==> w'.d().attempts == After(Nothing, SIGKILL, Group, w'.d().attempts.at) && r.exitCode.None?
    ensures r.timedOut && w.timebase ==> AdvanceNs(w.clock, DurationToNs(limit)) <= w'.d().attempts.at
    ensures w'.d().reaped.Some? || Trouble(w, w')
    ensures !r.timedOut ==> r.exitCode == if w'.d().reaped.Some? then Child.Code(w'.d().reaped.value) else None
  {
    hide Replay;
    Discipline.DigestCountsBreaches(w.log.trace);
    Discipline.VainMeans(w.log.trace);
    var waited;
    w', waited := WaitForHook(child, pid, limit, w);
    match waited {
      case Exited(status) => r := HookResult(true, Child.Code(status), false);
      case Error(_) => r := HookResult(true, None, false);
      case TimedOut =>
        var errno;
        ghost var mid;
        w', errno, mid := SendKill(w', Supervisor, SIGKILL, Group);
        var reaped;
        w', reaped := child.Wait(w');
        r := HookResult(true, None, true);
    }
    Discipline.DigestCountsBreaches(w'.log.trace);
    Discipline.VainMeans(w'.log.trace);
  }
}
