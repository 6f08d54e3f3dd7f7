/** Waiting for the child: one kqueue loop under five watchdogs. */
module WaitLoop {
  import opened Wrappers
  import opened TimeMath
  import opened Kernel
  import opened Throttle
  import opened Watch
  import Child

  datatype Reason = WallClock | StdinIdle

  datatype WaitResult =
    | Exited(status: int)
    | TimedOut(reason: Reason)
    | MemoryLimitExceeded(limit: U64, actual: U64)
    | ReceivedSignal(sig: int)

  datatype Error =
    | Timebase
    | Internal(errno: int)
    | SpawnError(errno: int)
    | SignalError(errno: int)

  /** The signal numbers of the platform. */
  predicate IsSignal(n: int) { 1 <= n <= 31 && n != 7 && n != 29 }

  /** The byte in the pipe is the signal; anything else reads as SIGTERM. */
  function DecodeSignal(byte: int): int { if IsSignal(byte) then byte else SIGTERM }

  /** What waiting never touches. */
  ghost predicate Undisturbed(d0: Digest, d: Digest) {
    && d.attempts == d0.attempts
    && d.hooks == d0.hooks
    && d.breaches == d0.breaches
    && d.vain == d0.vain
  }

  /** The throttle state, if there is one, and the world agree about the child. */
  ghost predicate Coupled(t: CpuThrottleState?, w: World)
    reads t
  {
    if t == null then !w.d().held
    else t.Tracks(w) && (t.processExited ==> w.d().dead)
  }

  /** Neither a reaping nor a pipe byte since d0. */
  ghost predicate Waiting(d0: Digest, d: Digest) {
    && Undisturbed(d0, d)
    && d.reaped == d0.reaped
    && d.waitFailures == d0.waitFailures
    && d.emptyPipes == d0.emptyPipes
    && d.kqs == d0.kqs
  }

  function Disabled(l: Watches): Watches {
    l.(stdin := None, stdinEnabled := false, stdinFlag := Delete)
  }

  function Active(l: Watches, at: U64): Watches
    requires l.stdin.Some?
  {
    l.(stdin := Some(l.stdin.value.(lastActivity := at)))
  }

  /** The stdin part of the loop state is consistent, and every input seen since
      d0 is recorded no earlier than it was seen. */
  ghost predicate StdinSane(l: Watches, d0: Digest, w: World) {
    && (l.stdinEnabled ==> l.stdin.Some? && l.stdin.value.mode == Consume)
    && (l.stdin.Some? && l.stdin.value.mode == Consume ==> l.stdinEnabled)
    && (l.stdin.Some? ==>
          && l.stdin.value.lastActivity <= w.clock
          && w.d().closed == d0.closed
          && (w.d().lastInput == d0.lastInput || w.d().lastInput <= l.stdin.value.lastActivity))
  }

  /** Stdin woke us: drain it and restart the idle time, or stop watching it. */
  method OnStdin(l: Watches, eof: bool, ghost d0: Digest, w: World) returns (w': World, l': Watches)
    requires w.timebase && l.stdinEnabled && w.reading <= w.clock
    requires l.stdin.Some? && l.stdin.value.lastActivity <= w.reading
    requires l.stdin.value.mode == Consume
    requires eof || w.d().closed == d0.closed
    requires w.d().lastInput == d0.lastInput || w.d().lastInput <= l.stdin.value.lastActivity
    ensures Later(w, w') && Waiting(w.d(), w'.d()) && w'.stdinWatched == w.stdinWatched
    ensures w'.d() == w.d().(dead := w'.d().dead, held := w'.d().held, closed := w'.d().closed, lastInput := w'.d().lastInput)
    ensures w'.d().held <==> w.d().held && !w'.d().dead
    ensures StdinSane(l', d0, w') && w'.reading <= w'.clock
    ensures l' == Disabled(l) || l' == l || (l' == Active(l, w'.reading) && l.stdin.value.lastActivity <= w'.reading)
    ensures eof || Now(w).bytes == 0 ==> l' == Disabled(l)
    ensures !eof && Now(w).bytes > 0 ==> l' == Active(l, w'.reading)
    ensures !eof && Now(w).bytes < 0 ==> l' == l
  {
    hide Replay;
    w', l' := w, l;
    if eof {
      l' := Disabled(l);
      return;
    }
    var bytes;
    ghost var mid;
    w', bytes, mid := ReadStdin(w);
    if bytes == 0 {
      l' := Disabled(l);
    } else if bytes > 0 {
      var now;
      w', now := ReadClock(w');
      l' := Active(l, now.value);
    }
  }

  /** Since d a sample has been taken and was within the limit, or the child no longer
      answers. */
  ghost predicate WithinLimit(l: Watches, d: Digest, w: World)
    requires l.memory.Some?
  {
    w.d().dead || (d.memory.count < w.d().memory.count && w.d().memory.last <= l.memory.value.limit)
  }

  /** Since d a sample has been taken that is above the limit. */
  ghost predicate Exceeded(memory: Option<MemoryLimit>, d: Digest, d': Digest, limit: U64, actual: U64) {
    && memory.Some? && limit == memory.value.limit < actual
    && d.memory.count < d'.memory.count && d'.memory.last == actual
  }

  /** Sample memory if it is due, and report a child over its limit. */
  method CheckMemory(l: Watches, now: U64, w: World) returns (w': World, l': Watches, r: Option<WaitResult>)
    ensures Later(w, w') && Waiting(w.d(), w'.d())
    ensures w'.reading == w.reading && w'.stdinWatched == w.stdinWatched
    ensures w'.d() == w.d().(dead := w'.d().dead, held := w'.d().held, memory := w'.d().memory)
    ensures w'.d().held <==> w.d().held && !w'.d().dead
    ensures r.Some? ==> l' == l && r.value.MemoryLimitExceeded?
                        && Exceeded(l.memory, w.d(), w'.d(), r.value.limit, r.value.actual)
    ensures w.d().memory.count <= w'.d().memory.count
    ensures r.None? ==> l' == if l.memory.Some? && now >= l.nextMemory
                              then l.(nextMemory := AdvanceNs(now, l.memory.value.interval)) else l
    ensures r.None? && l.memory.Some? && now >= l.nextMemory ==> WithinLimit(l, w.d(), w')
    ensures l.memory.None? ==> w'.d().memory == w.d().memory
  {
    hide Replay;
    w', l', r := w, l, None;
    if l.memory.Some? && DeadlineReached(now, l.nextMemory) {
      var bytes;
      ghost var mid;
      w', bytes, mid := ReadMemory(w);
      if bytes.Some? && bytes.value > l.memory.value.limit {
        r := Some(MemoryLimitExceeded(l.memory.value.limit, bytes.value));
        return;
      }
      l' := l.(nextMemory := AdvanceNs(now, l.memory.value.interval));
    }
  }

  /** In passthrough mode look at stdin without consuming it, then report a
      stdin that has been idle for too long. */
  method CheckInput(l: Watches, now: U64, ghost d0: Digest, w: World)
      returns (w': World, l': Watches, r: Option<WaitResult>)
    requires w.reading == now <= w.clock && StdinSane(l, d0, w)
    requires l.stdin.Some? ==> l.stdin.value.lastActivity <= now
    ensures Later(w, w') && Waiting(w.d(), w'.d())
    ensures w'.reading == now && w'.stdinWatched == w.stdinWatched
    ensures w'.d() == w.d().(dead := w'.d().dead, held := w'.d().held, closed := w'.d().closed, lastInput := w'.d().lastInput)
    ensures w'.d().held <==> w.d().held && !w'.d().dead
    ensures StdinSane(l', d0, w')
    ensures l'.stdin.Some? ==> l'.stdin.value.lastActivity <= now
    ensures l' == l || l' == l.(stdin := None) || (l.stdin.Some? && l' == Active(l, now))
    ensures r.Some? ==> r.value == TimedOut(StdinIdle) && l'.stdin.Some?
                        && l'.stdin.value.lastActivity + l.idleLimit <= now
    ensures r.None? && l'.stdin.Some? ==> now < l'.stdin.value.lastActivity + l.idleLimit
    ensures !(l.stdin.Some? && l.stdin.value.mode == Passthrough) ==> l' == l && w' == w
  {
    hide Replay;
    w', l', r := w, l, None;
    if l.stdin.Some? && l.stdin.value.mode == Passthrough {
      var status;
      ghost var mid;
      w', status, mid := PollStdin(w);
      match status
      case Readable => l' := Active(l, now);
      case Eof => l' := l.(stdin := None);
      case Idle =>
    }
    if l'.stdin.Some? {
      var idle := ElapsedNs(l'.stdin.value.lastActivity, now);
      if idle.Some? && idle.value >= l.idleLimit {
        r := Some(TimedOut(StdinIdle));
      }
    }
  }

  /** Sample the throttle if it is due. */
  method CheckThrottle(l: Watches, t: CpuThrottleState?, cfg: Config, now: U64, w: World)
      returns (w': World, l': Watches)
    requires Coupled(t, w)
    requires t != null ==> w.d().attempts == Nothing && w.d().reaped.None?
    modifies if t == null then {} else {t}
    ensures Coupled(t, w') && Later(w, w') && Waiting(w.d(), w'.d())
    ensures w'.reading == w.reading && w'.stdinWatched == w.stdinWatched
    ensures w'.d() == w.d().(dead := w'.d().dead, held := w'.d().held, notes := w'.d().notes)
    ensures l' == if t != null && now >= l.nextThrottle
                  then l.(nextThrottle := AdvanceNs(now, l.throttle)) else l
    ensures !(t != null && now >= l.nextThrottle) ==> w' == w
    ensures t != null && now >= l.nextThrottle ==>
              && t.lastWall == now && Sampled(w.d().notes, w'.d().notes)
              && (!w'.d().dead ==> w'.d().notes.samples != w.d().notes.samples)
              && (!w'.d().dead && t.Wall() > 0 && t.Wall() * cfg.percent / 100 < TWO_64 ==>
                    t.suspended == OverBudget(t.Cpu(), t.Wall(), cfg.percent) || KillFailed(w'))
  {
    hide Replay;
    w', l' := w, l;
    if t != null && DeadlineReached(now, l.nextThrottle) {
      var held;
      w', held := t.Update(cfg, now, w);
      l' := l.(nextThrottle := AdvanceNs(now, l.throttle));
    }
  }

  /** A watchdog that was due has been moved to one interval from now. */
  ghost predicate MovedOrNotDue(due: U64, due': U64, interval: U64, now: U64) {
    (due' == due && now < due) || (due <= now && due' == AdvanceNs(now, interval))
  }

  /** Whatever was due to be sampled has been, and was in order. */
  ghost predicate SampledDue(l: Watches, t: CpuThrottleState?, now: U64, d: Digest, w: World)
    reads t
  {
    && (t != null && now >= l.nextThrottle ==> t.lastWall == now)
    && (l.memory.Some? && now >= l.nextMemory ==> WithinLimit(l, d, w))
  }

  /** The clock, the throttle and the memory limit, in that order. */
  method ServeSamples(l: Watches, t: CpuThrottleState?, cfg: Config, w: World)
      returns (w': World, l': Watches, r: Option<WaitResult>, now: U64)
    requires Coupled(t, w) && w.timebase
    requires t != null ==> w.d().attempts == Nothing && w.d().reaped.None?
    requires t == null ==> l.nextThrottle == U64_MAX
    requires l.memory.None? ==> l.nextMemory == U64_MAX
    modifies if t == null then {} else {t}
    ensures Coupled(t, w') && Later(w, w') && w'.stdinWatched == w.stdinWatched
    ensures w.clock <= now <= w'.clock && w'.reading == now
    ensures w'.d() == w.d().(dead := w'.d().dead, held := w'.d().held, memory := w'.d().memory, notes := w'.d().notes)
    ensures l' == l.(nextThrottle := l'.nextThrottle, nextMemory := l'.nextMemory)
    ensures now < U64_MAX ==> MovedOrNotDue(l.nextThrottle, l'.nextThrottle, l.throttle, now)
    ensures now < U64_MAX && r.None? ==> MovedOrNotDue(l.nextMemory, l'.nextMemory, MemoryInterval(l), now)
    ensures r.Some? ==> r.value.MemoryLimitExceeded? && Exceeded(l.memory, w.d(), w'.d(), r.value.limit, r.value.actual)
    ensures SampledDue(l, t, now, w.d(), w') || r.Some?
    ensures l.memory.None? ==> w'.d().memory == w.d().memory
  {
    hide Replay;
    var reading;
    w', reading := ReadClock(w);
    now := reading.value;
    w', l' := CheckThrottle(l, t, cfg, now, w');
    w', l', r := CheckMemory(l', now, w');
  }

  function MemoryInterval(l: Watches): U64 { if l.memory.Some? then l.memory.value.interval else 0 }

  /** Note a heartbeat that is due, unless time is up. */
  function Beat(l: Watches, now: U64): Watches {
    if l.heartbeat > 0 && !DeadlineReached(now, l.deadline) && DeadlineReached(now, l.nextHeartbeat) then
      l.(nextHeartbeat := AdvanceNs(now, l.heartbeat))
    else l
  }

  lemma BeatMoves(l: Watches, now: U64)
    requires now < l.deadline && (l.heartbeat == 0 ==> l.nextHeartbeat == U64_MAX)
    ensures MovedOrNotDue(l.nextHeartbeat, Beat(l, now).nextHeartbeat, l.heartbeat, now)
  {
  }

  /** Stdin, then the deadline, then the heartbeat. */
  method ServeRest(l: Watches, now: U64, ghost d0: Digest, w: World)
      returns (w': World, l': Watches, r: Option<WaitResult>)
    requires w.reading == now <= w.clock && StdinSane(l, d0, w)
    requires l.stdin.Some? ==> l.stdin.value.lastActivity <= now
    requires l.heartbeat == 0 ==> l.nextHeartbeat == U64_MAX
    ensures Later(w, w') && w'.reading == now && w'.stdinWatched == w.stdinWatched
    ensures w'.d() == w.d().(dead := w'.d().dead, held := w'.d().held, closed := w'.d().closed, lastInput := w'.d().lastInput)
    ensures w'.d().held <==> w.d().held && !w'.d().dead
    ensures StdinSane(l', d0, w')
    ensures l' == l.(nextHeartbeat := l'.nextHeartbeat, stdin := l'.stdin)
    ensures l'.stdin == l.stdin || l'.stdin.None? || (l.stdin.Some? && l'.stdin == Active(l, now).stdin)
    ensures r.None? ==>
              && now < l.deadline
              && MovedOrNotDue(l.nextHeartbeat, l'.nextHeartbeat, l.heartbeat, now)
              && (l'.stdin.Some? ==> now < l'.stdin.value.lastActivity + l.idleLimit)
    ensures r.Some? ==> Justified(l', w.d(), w', now, r.value) && !r.value.MemoryLimitExceeded?
    ensures !(l.stdin.Some? && l.stdin.value.mode == Passthrough) ==> w'.d().lastInput == w.d().lastInput
  {
    hide Replay; hide MovedOrNotDue;
    w', l', r := CheckInput(l, now, d0, w);
    if r.Some? { return; }
    if DeadlineReached(now, l.deadline) {
      r := Some(TimedOut(WallClock));
    } else {
      BeatMoves(l', now);
    }
    l' := Beat(l', now);
  }

  /** The timer went off: serve every watchdog that is due. Without a result,
      each of them has been moved forward or switched off. */
  method OnTimer(l: Watches, t: CpuThrottleState?, cfg: Config, ghost d0: Digest, w: World)
      returns (w': World, l': Watches, r: Option<WaitResult>, now: U64)
    requires Coupled(t, w) && w.timebase && StdinSane(l, d0, w)
    requires t != null ==> w.d().attempts == Nothing && w.d().reaped.None?
    requires t == null ==> l.nextThrottle == U64_MAX
    requires l.memory.None? ==> l.nextMemory == U64_MAX
    requires l.heartbeat == 0 ==> l.nextHeartbeat == U64_MAX
    modifies if t == null then {} else {t}
    ensures Coupled(t, w') && Later(w, w') && w'.stdinWatched == w.stdinWatched
    ensures w.clock <= now <= w'.clock && w'.reading == now
    ensures w'.d() == w.d().(dead := w'.d().dead, held := w'.d().held, memory := w'.d().memory, notes := w'.d().notes,
                             closed := w'.d().closed, lastInput := w'.d().lastInput)
    ensures StdinSane(l', d0, w')
    ensures l' == l.(nextHeartbeat := l'.nextHeartbeat, nextThrottle := l'.nextThrottle,
                     nextMemory := l'.nextMemory, stdin := l'.stdin)
    ensures l'.stdin == l.stdin || l'.stdin.None? || (l.stdin.Some? && l'.stdin == Active(l, now).stdin)
    ensures r.None? ==> AllMoved(l, l', now) && SampledDue(l, t, now, w.d(), w')
    ensures r.Some? ==> Justified(l', w.d(), w', now, r.value)
    ensures !(l.stdin.Some? && l.stdin.value.mode == Passthrough) ==> w'.d().lastInput == w.d().lastInput
    ensures l.memory.None? ==> w'.d().memory == w.d().memory
  {
    hide Replay; hide MovedOrNotDue;
    w', l', r, now := ServeSamples(l, t, cfg, w);
    if r.None? {
      w', l', r := ServeRest(l', now, d0, w');
    }
  }

  ghost predicate AllMoved(l: Watches, l': Watches, now: U64) {
    && now < l.deadline
    && MovedOrNotDue(l.nextHeartbeat, l'.nextHeartbeat, l.heartbeat, now)
    && MovedOrNotDue(l.nextThrottle, l'.nextThrottle, l.throttle, now)
    && MovedOrNotDue(l.nextMemory, l'.nextMemory, MemoryInterval(l), now)
    && (l'.stdin.Some? ==>
          && now < l'.stdin.value.lastActivity + l.idleLimit
          && (l'.stdin == l.stdin || l'.stdin.value.lastActivity == now))
  }

  /** The facts a result of the timer branch rests on. */
  ghost predicate Justified(l: Watches, d: Digest, w: World, now: U64, r: WaitResult) {
    match r
    case TimedOut(WallClock) => l.deadline <= now
    case TimedOut(StdinIdle) => l.stdin.Some? && l.stdin.value.lastActivity + l.idleLimit <= now
    case MemoryLimitExceeded(limit, actual) =>
      Exceeded(l.memory, d, w.d(), limit, actual)
    case _ => false
  }

  // ----- leaving the loop

  /** The first wait4 after position n of the trace does not block. */
  ghost predicate AsksFirst(w: World, w': World, n: nat) {
    n < |w'.log.trace| && w.log.trace <= w'.log.trace && w'.log.trace[n] == WaitCall(false)
  }

  ghost predicate EndsWith(w: World, e: Event) { w.log.trace != [] && w.log.trace[|w.log.trace| - 1] == e }

  /** The kernel says the process is gone: reap it, without blocking if that
      works. A child that cannot be waited for counts as timed out. */
  method ReapGone(child: Child.RawChild, w: World) returns (w': World, r: Result<WaitResult, Error>)
    requires child.Tracks(w) && !child.exited && w.d().dead
    modifies child
    ensures child.Tracks(w') && Later(w, w') && Undisturbed(w.d(), w'.d())
    ensures w'.d() == w.d().(held := false, reaped := w'.d().reaped, waitFailures := w'.d().waitFailures, notes := w'.d().notes)
    ensures w.d().waitFailures <= w'.d().waitFailures
    ensures match r
            case Ok(Exited(status)) => child.exited && w'.d().reaped == Some(status)
            case Ok(TimedOut(WallClock)) => !child.exited && w.d().waitFailures < w'.d().waitFailures
            case Ok(_) => false
            case Err(e) => !child.exited && e.Internal? && e.errno != ECHILD && w.d().waitFailures < w'.d().waitFailures
    // it asks first, and a child that cannot be waited for at all counts as timed out only if there is none
    ensures AsksFirst(w, w', |w.log.trace|)
    ensures r == Ok(TimedOut(WallClock)) ==> EndsWith(w', WaitReturn(true, Failed(ECHILD)))
    ensures r.Err? ==> EndsWith(w', WaitReturn(true, Failed(r.error.errno)))
  {
    hide Replay;
    var tried;
    w', tried := child.TryWait(w);
    if tried.Ok? && tried.value.Some? {
      return w', Ok(Exited(tried.value.value));
    }
    var waited;
    w', waited := child.Wait(w');
    if waited.Ok? {
      r := Ok(Exited(waited.value));
    } else if waited.error.errno == ECHILD {
      r := Ok(TimedOut(WallClock));
    } else {
      r := Err(Internal(waited.error.errno));
    }
  }

  /** The child exited: reap it. */
  method ReapExited(child: Child.RawChild, w: World) returns (w': World, r: Result<WaitResult, Error>)
    requires child.Tracks(w) && !child.exited && w.d().dead
    modifies child
    ensures child.Tracks(w') && Later(w, w') && Undisturbed(w.d(), w'.d())
    ensures w'.d() == w.d().(held := false, reaped := w'.d().reaped, waitFailures := w'.d().waitFailures, notes := w'.d().notes)
    ensures w.d().waitFailures <= w'.d().waitFailures
    ensures r.Ok? ==> child.exited && r.value.Exited? && w'.d().reaped == Some(r.value.status)
    ensures r.Err? ==> !child.exited && r.error.SpawnError? && w.d().waitFailures < w'.d().waitFailures
  {
    hide Replay;
    var waited;
    w', waited := child.Wait(w);
    r := if waited.Ok? then Ok(Exited(waited.value)) else Err(SpawnError(waited.error.errno));
  }

  /** The signal pipe is readable: take the signal out of it. */
  method TakeSignal(w: World) returns (w': World, r: WaitResult)
    ensures Later(w, w') && SameButDeath(w.d().(bytes := w'.d().bytes, emptyPipes := w'.d().emptyPipes), w'.d())
    ensures w.d().emptyPipes <= w'.d().emptyPipes
    ensures if r.ReceivedSignal? then Received(w.d(), w'.d(), r.sig)
            else r == TimedOut(WallClock) && w.d().emptyPipes < w'.d().emptyPipes && w'.d().bytes == w.d().bytes
    ensures r == Taken(w.script) && w'.script == Rest(w.script)
  {
    hide Replay;
    var byte;
    ghost var mid;
    w', byte, mid := ReadPipe(w);
    r := if byte.Some? then ReceivedSignal(DecodeSignal(byte.value)) else TimedOut(WallClock);
  }

  /** One byte has been read since d, and it is this signal's. */
  ghost predicate Received(d: Digest, d': Digest, sig: int) {
    d'.bytes == Count(d.bytes, d'.bytes.last) && sig == DecodeSignal(d'.bytes.last)
  }

  /** What the pipe answers. */
  function Taken(script: seq<Choice>): WaitResult {
    if First(script).fails then TimedOut(WallClock) else ReceivedSignal(DecodeSignal(First(script).bytes))
  }

  datatype Turned = Again | Done(result: Result<WaitResult, Error>)

  /** What each result says about the run that led to it. A signal is the only byte
      read, and without one there was none. */
  ghost predicate Explains(l: Watches, d0: Digest, w: World, r: Result<WaitResult, Error>) {
    (w.d().bytes == d0.bytes || (r.Ok? && r.value.ReceivedSignal?)) &&
    match r
    case Ok(Exited(status)) => w.d().reaped == Some(status)
    case Ok(TimedOut(WallClock)) =>
      l.deadline <= w.clock || d0.emptyPipes < w.d().emptyPipes || d0.waitFailures < w.d().waitFailures
    case Ok(TimedOut(StdinIdle)) =>
      && l.stdin.Some? && l.stdin.value.lastActivity + l.idleLimit <= w.clock
      && w.d().closed == d0.closed
      && (w.d().lastInput == d0.lastInput || w.d().lastInput <= l.stdin.value.lastActivity)
    case Ok(MemoryLimitExceeded(limit, actual)) =>
      Exceeded(l.memory, d0, w.d(), limit, actual)
    case Ok(ReceivedSignal(sig)) => l.signalFd.Some? && Received(d0, w.d(), sig)
    case Err(Internal(_)) => d0.faults < w.d().faults || d0.waitFailures < w.d().waitFailures
    case Err(SpawnError(_)) => d0.waitFailures < w.d().waitFailures
    case Err(_) => false
  }

  /** The invariant of the wait loop. */
  ghost predicate Looping(l: Watches, t: CpuThrottleState?, child: Child.RawChild, kq: int, d0: Digest, w: World)
    reads t, child
  {
    && Coupled(t, w)
    && w.timebase && w.reading <= w.clock
    && child.Tracks(w) && !child.exited
    && (t != null ==> w.d().attempts == Nothing)
    && kq in w.d().kqs
    && d0.emptyPipes == w.d().emptyPipes && d0.waitFailures == w.d().waitFailures
    && d0.faults <= w.d().faults
    && d0.bytes == w.d().bytes && d0.memory.count <= w.d().memory.count
    && StdinSane(l, d0, w)
    && (t == null ==> l.nextThrottle == U64_MAX)
    && (l.memory.None? ==> l.nextMemory == U64_MAX)
    && (l.heartbeat == 0 ==> l.nextHeartbeat == U64_MAX)
    && (l.signalFd.None? ==> !w.stdinWatched)
    && l.deadline <= w.clock + MAX_TIMER_NS
  }

  /** kevent failed. An interrupted call is retried with the remaining time. */
  method OnError(child: Child.RawChild, kq: int, errno: int, w: World)
      returns (w': World, out: Turned)
    requires child.Tracks(w) && !child.exited && kq in w.d().kqs
    requires errno == ESRCH ==> w.d().dead
    modifies child
    ensures Later(w, w') && Undisturbed(w.d(), w'.d()) && child.Tracks(w')
    ensures out.Again? <==> errno == EINTR
    ensures out.Again? ==> w' == w && !child.exited
    ensures out.Done? ==>
              && w'.d().kqs == w.d().kqs - {kq}
              && w'.d() == w.d().(dead := w'.d().dead, held := w'.d().held, kqs := w'.d().kqs,
                                  reaped := w'.d().reaped, waitFailures := w'.d().waitFailures, notes := w'.d().notes)
              && (w'.d().held <==> w.d().held && !w'.d().dead)
              && (errno == ESRCH ==> AsksFirst(w, w', |w.log.trace| + 1))
              && (out.result == Ok(TimedOut(WallClock)) ==> EndsWith(w', WaitReturn(true, Failed(ECHILD))))
              && (out.result.Err? ==>
                    if errno == ESRCH then out.result.error.Internal? && out.result.error.errno != ECHILD
                                           && EndsWith(w', WaitReturn(true, Failed(out.result.error.errno)))
                    else out.result.error == Internal(errno))
              && (match out.result
                  case Ok(Exited(status)) => child.exited && w'.d().reaped == Some(status)
                  case Ok(TimedOut(WallClock)) => !child.exited && w.d().waitFailures < w'.d().waitFailures
                  case Ok(_) => false
                  case Err(e) => !child.exited && e.Internal?
                                 && (errno != ESRCH || w.d().waitFailures < w'.d().waitFailures))
  {
    hide Replay;
    if errno == EINTR {
      return w, Again;
    }
    ghost var mid;
    w', mid := CloseKqueue(w, kq);
    if errno == ESRCH {
      var r;
      w', r := ReapGone(child, w');
      out := Done(r);
    } else {
      out := Done(Err(Internal(errno)));
    }
  }

  /** A registration error, the child's exit, or the signal pipe. Trouble with the
      stdin filter only switches that watchdog off. */
  method OnOther(child: Child.RawChild, l: Watches, kq: int, e: Wake, ghost d0: Digest, w: World)
      returns (w': World, l': Watches, out: Turned)
    requires child.Tracks(w) && !child.exited && kq in w.d().kqs
    requires e.WakeEvent? && e.filter != Timer
    requires (if e.error then e.data == ESRCH else e.filter == Proc) ==> w.d().dead
    requires e.filter == Read && !e.error ==> l.signalFd.Some?
    requires IsFault(e) ==> d0.faults < w.d().faults
    requires d0.bytes == w.d().bytes && d0.memory.count <= w.d().memory.count
    requires d0.waitFailures == w.d().waitFailures && d0.emptyPipes == w.d().emptyPipes && d0.faults <= w.d().faults
    modifies child
    ensures Later(w, w') && Undisturbed(w.d(), w'.d()) && child.Tracks(w')
    ensures e.filter == Proc && !e.error ==> out.Done? && (out.result.Ok? ==> out.result.value.Exited?)
                                             && (out.result.Err? ==> w.d().waitFailures < w'.d().waitFailures)
    ensures e.filter == Read && !e.error ==> out == Done(Ok(Taken(Rest(w.script)))) && w'.script == Rest(Rest(w.script))
    ensures out.Again? ==> e.error && w' == w && !child.exited && (l' == Disabled(l) || l' == l.(stdinFlag := NoOp))
    ensures out.Done? ==>
              && l' == l
              && w'.d().kqs == w.d().kqs - {kq}
              && w'.d() == w.d().(dead := w'.d().dead, held := w'.d().held, kqs := w'.d().kqs,
                                  reaped := w'.d().reaped, waitFailures := w'.d().waitFailures,
                                  bytes := w'.d().bytes, emptyPipes := w'.d().emptyPipes, notes := w'.d().notes)
              && (w'.d().held <==> w.d().held && !w'.d().dead)
              && (child.exited <==> out.result.Ok? && out.result.value.Exited?)
              && (match out.result
                  case Ok(TimedOut(StdinIdle)) => false
                  case Ok(MemoryLimitExceeded(_, _)) => false
                  case _ => true)
              && (out.result == Ok(TimedOut(WallClock)) ==>
                    w.d().emptyPipes < w'.d().emptyPipes || w.d().waitFailures < w'.d().waitFailures)
              && Explains(l, d0, w', out.result)
  {
    hide Replay;
    w', l' := w, l;
    if e.error && e.data == EBADF && e.ident == 0 {
      l' := Disabled(l);
      return w', l', Again;
    }
    if e.error && e.data == ENOENT && e.ident == 0 {
      l' := l.(stdinFlag := NoOp);
      return w', l', Again;
    }
    ghost var mid;
    w', mid := CloseKqueue(w, kq);
    if e.error {
      if e.data == ESRCH {
        var r;
        w', r := ReapGone(child, w');
        out := Done(r);
      } else {
        out := Done(Err(Internal(e.data)));
      }
    } else if e.filter == Proc {
      var r;
      w', r := ReapExited(child, w');
      out := Done(r);
    } else {
      var r;
      w', r := TakeSignal(w');
      out := Done(Ok(r));
    }
  }

  /** The kernel has already recorded an end of input it reports. */
  ghost function AfterWake(d0: Digest, e: Wake): Digest {
    d0.(closed := d0.closed + if IsStdinEvent(e) && e.eof then 1 else 0)
  }

  /** The digest of a loop that goes on differs from the old one only here. */
  ghost predicate OnlyWatched(d0: Digest, d: Digest) {
    && d == d0.(dead := d.dead, held := d.held, farthest := d.farthest, ticks := d.ticks,
                lastInput := d.lastInput, closed := d.closed, memory := d.memory, faults := d.faults,
                notes := d.notes)
    && (d0.dead ==> d.dead)
  }

  /** The digest of a loop that is left has closed its queue as well. */
  ghost predicate OnlyLeft(kq: int, d0: Digest, d: Digest) {
    && Undisturbed(d0, d)
    && d.kqs == d0.kqs - {kq}
  }

  /** Arm the timer for the nearest due time and block. */
  method Block(l: Watches, pid: int, now: U64, w: World) returns (w': World, wake: Wake, ghost fired: bool)
    requires w.clock == w.reading == now < l.deadline <= now + MAX_TIMER_NS
    requires l.stdin.Some? ==> l.stdin.value.lastActivity <= now
    requires l.signalFd.None? ==> !w.stdinWatched
    ensures Later(w, w') && w'.reading == now
    ensures w'.d() == w.d().(dead := w'.d().dead, held := w'.d().held, farthest := w'.d().farthest,
                             ticks := w'.d().ticks, closed := w'.d().closed, faults := w'.d().faults,
                             notes := w'.d().notes)
    ensures w'.d().faults == w.d().faults + One(IsFault(wake))
    ensures w'.d().held <==> w.d().held && !w'.d().dead
    ensures w'.d().farthest == Max(w.d().farthest, now + NextWake(l, now)) && now + NextWake(l, now) <= l.deadline
    ensures fired == (wake.WakeEvent? && wake.filter == Timer)
    ensures w'.d().ticks == w.d().ticks + if fired then 1 else 0
    ensures w'.d().closed == w.d().closed + if IsStdinEvent(wake) && wake.eof then 1 else 0
    ensures fired ==> now + NextWake(l, now) <= w'.clock
    ensures wake.WakeEvent? && (if wake.error then wake.data == ESRCH else wake.filter == Proc) ==> w'.d().dead
    ensures wake.WakeError? && wake.errno == ESRCH ==> w'.d().dead
    ensures l.signalFd.None? ==> !w'.stdinWatched && !(wake.WakeEvent? && wake.filter == Read)
    ensures w'.script == Rest(w.script)
    ensures LedTo(l, Now(w).wake, w.d().dead, wake)
  {
    hide Replay;
    var delay := NextWake(l, now);
    ProcessAndPipeSubmitted(l, pid, delay);
    ghost var mid;
    w', wake, mid := Kevent(w, Submitted(l, pid, delay), Min(delay, MAX_TIMER_NS));
    fired := wake.WakeEvent? && wake.filter == Timer;
    if l.signalFd.None? {
      SubmittedStdin(l, pid, delay, w.stdinWatched);
      StdinSubmittedIffPipePresent(l, pid, delay);
    }
  }

  /** Only due times and the stdin watch change; stdin activity only gets later. */
  ghost predicate SameSettings(l: Watches, l': Watches) {
    && l' == l.(nextHeartbeat := l'.nextHeartbeat, nextThrottle := l'.nextThrottle, nextMemory := l'.nextMemory,
                stdin := l'.stdin, stdinEnabled := l'.stdinEnabled, stdinFlag := l'.stdinFlag)
    && (l'.stdin.Some? ==>
          && l.stdin.Some?
          && l'.stdin.value == l.stdin.value.(lastActivity := l'.stdin.value.lastActivity)
          && l.stdin.value.lastActivity <= l'.stdin.value.lastActivity)
  }

  ghost predicate SameDueTimes(l: Watches, l': Watches) {
    l'.nextHeartbeat == l.nextHeartbeat && l'.nextThrottle == l.nextThrottle && l'.nextMemory == l.nextMemory
  }

  ghost predicate SomeDue(l: Watches, now: U64) {
    exists due :: due in Pending(l) && due <= now
  }

  /** No filter watches stdin and nothing polls it. */
  predicate Deaf(l: Watches) {
    l.signalFd.None? && !(l.stdin.Some? && l.stdin.value.mode == Passthrough)
  }

  /** Without the means to, the wait sees neither consumed input nor memory. */
  ghost predicate Unseen(l: Watches, d: Digest, d': Digest) {
    && (Deaf(l) ==> d'.lastInput == d.lastInput)
    && (l.memory.None? ==> d'.memory == d.memory)
  }

  /** One event has been acted on: either the loop goes on as before, or its queue
      is closed and there is a result. */
  ghost predicate ActedOn(child: Child.RawChild, l: Watches, l': Watches, t: CpuThrottleState?, kq: int,
                          d0: Digest, w: World, w': World, out: Turned)
    reads child, t
  {
    && Later(w, w') && SameSettings(l, l') && child.Tracks(w')
    && w'.d().ticks == w.d().ticks && w'.d().farthest == w.d().farthest
    && Unseen(l, w.d(), w'.d())
    && (out.Again? ==> Looping(l', t, child, kq, d0, w') && OnlyWatched(w.d(), w'.d()))
    && (out.Done? ==>
          && OnlyLeft(kq, w.d(), w'.d()) && Coupled(t, w')
          && (child.exited <==> out.result.Ok? && out.result.value.Exited?)
          && Explains(l', d0, w', out.result))
  }

  /** Serve a timer event, and close the queue if that ends the wait. */
  method TimerTurn(child: Child.RawChild, l: Watches, t: CpuThrottleState?, cfg: Config, kq: int, ghost d0: Digest, w: World)
      returns (w': World, l': Watches, out: Turned, ghost now: U64)
    requires Looping(l, t, child, kq, d0, w)
    requires l.stdin.Some? ==> l.stdin.value.lastActivity <= w.reading
    modifies if t == null then {} else {t}
    ensures ActedOn(child, l, l', t, kq, d0, w, w', out)
    ensures out.Again? ==> w.clock <= now <= w'.clock && AllMoved(l, l', now) && SampledDue(l, t, now, w.d(), w')
  {
    hide Replay;
    var r;
    w', l', r, now := OnTimer(l, t, cfg, d0, w);
    out := Again;
    if r.Some? {
      ghost var mid;
      w', mid := CloseKqueue(w', kq);
      out := Done(Ok(r.value));
    }
  }

  method ErrorTurn(child: Child.RawChild, l: Watches, ghost t: CpuThrottleState?, kq: int, errno: int, ghost d0: Digest, w: World)
      returns (w': World, out: Turned)
    requires Looping(l, t, child, kq, d0, w)
    requires errno == ESRCH ==> w.d().dead
    requires IsFault(WakeError(errno)) ==> d0.faults < w.d().faults
    modifies child
    ensures ActedOn(child, l, l, t, kq, d0, w, w', out)
  {
    hide Replay;
    w', out := OnError(child, kq, errno, w);
  }

  method StdinTurn(ghost child: Child.RawChild, l: Watches, ghost t: CpuThrottleState?, ghost kq: int, e: Wake, ghost d0: Digest, w: World)
      returns (w': World, l': Watches)
    requires Looping(l, t, child, kq, AfterWake(d0, e), w) && l.stdinEnabled && l.signalFd.Some?
    requires l.stdin.Some? ==> l.stdin.value.lastActivity <= w.reading
    requires e.WakeEvent? && e.filter == Read && e.ident == 0
    ensures ActedOn(child, l, l', t, kq, d0, w, w', Again) && SameDueTimes(l, l')
  {
    hide Replay;
    w', l' := OnStdin(l, e.eof, d0, w);
  }

  method OtherTurn(child: Child.RawChild, l: Watches, ghost t: CpuThrottleState?, kq: int, e: Wake, ghost d0: Digest, w: World)
      returns (w': World, l': Watches, out: Turned)
    requires Looping(l, t, child, kq, AfterWake(d0, e), w)
    requires e.WakeEvent? && e.filter != Timer && !(e.filter == Read && e.ident == 0 && l.stdinEnabled)
    requires (if e.error then e.data == ESRCH else e.filter == Proc) ==> w.d().dead
    requires l.signalFd.None? ==> e.filter != Read
    requires IsFault(e) ==> d0.faults < w.d().faults
    modifies child
    ensures ActedOn(child, l, l', t, kq, d0, w, w', out) && SameDueTimes(l, l')
    ensures Settles(l, e, w.script, w.d(), w', out)
  {
    hide Replay;
    w', l', out := OnOther(child, l, kq, e, d0, w);
  }

  /** Act on anything but the timer. */
  method EventTurn(child: Child.RawChild, l: Watches, ghost t: CpuThrottleState?, kq: int, e: Wake, ghost d0: Digest, w: World)
      returns (w': World, l': Watches, out: Turned)
    requires Looping(l, t, child, kq, AfterWake(d0, e), w)
    requires l.stdin.Some? ==> l.stdin.value.lastActivity <= w.reading
    requires e.WakeEvent? ==> e.filter != Timer
    requires e.WakeEvent? && (if e.error then e.data == ESRCH else e.filter == Proc) ==> w.d().dead
    requires e.WakeError? && e.errno == ESRCH ==> w.d().dead
    requires l.signalFd.None? ==> !(e.WakeEvent? && e.filter == Read)
    requires IsFault(e) ==> d0.faults < w.d().faults
    modifies child
    ensures ActedOn(child, l, l', t, kq, d0, w, w', out) && SameDueTimes(l, l')
    ensures Settles(l, e, w.script, w.d(), w', out)
  {
    hide Replay; hide ActedOn; hide Looping;
    if e.WakeError? {
      l' := l;
      w', out := ErrorTurn(child, l, t, kq, e.errno, d0, w);
    } else if e.filter == Read && e.ident == 0 && l.stdinEnabled {
      w', l' := StdinTurn(child, l, t, kq, e, d0, w);
      out := Again;
    } else {
      w', l', out := OtherTurn(child, l, t, kq, e, d0, w);
    }
  }

  /** The next reading of the clock finds neither the deadline nor the idle limit
      passed. */
  ghost predicate InTime(l: Watches, w: World) {
    var now := ClockAfter(w.clock, w.script, 1);
    now < l.deadline && (l.stdin.Some? ==> now < l.stdin.value.lastActivity + l.idleLimit)
  }

  /** The environment would have the signal pipe wake us. */
  predicate PipeWakes(signalFd: Option<int>, e: Wake) {
    signalFd.Some? && signalFd.value != 0 && e == WakeEvent(Read, signalFd.value, false, false, 0)
  }

  /** The environment would have the timer or the child's exit wake us. */
  predicate TimerOrExitWakes(e: Wake) { e.WakeEvent? && (e.filter == Timer || (e.filter == Proc && !e.error)) }

  /** A wake-up that ends the wait. */
  predicate MustEnd(signalFd: Option<int>, dead: bool, e: Wake) {
    PipeWakes(signalFd, e) || (dead && TimerOrExitWakes(e))
  }

  /** What a wait owes to its first wake-up, that of choice e: a signal is taken, and a
      child that was dead already is reaped. */
  ghost predicate Heeds(signalFd: Option<int>, dead: bool, e: Wake, rest: seq<Choice>, d: Digest, w': World,
                        r: Result<WaitResult, Error>) {
    && (PipeWakes(signalFd, e) ==> r == Ok(Taken(Rest(rest))) && w'.script == Rest(Rest(rest)))
    && (dead && TimerOrExitWakes(e) ==>
          if r.Ok? then r.value.Exited? else d.waitFailures < w'.d().waitFailures)
  }

  /** Start a turn: read the clock and see whether the time or the idle limit is
      up already. */
  method Expired(l: Watches, kq: int, ghost d0: Digest, w: World)
      returns (w': World, now: U64, r: Option<WaitResult>)
    requires w.timebase && StdinSane(l, d0, w) && kq in w.d().kqs && w.d().bytes == d0.bytes
    ensures Later(w, w') && w.clock <= now <= w'.clock
    ensures w'.d() == w.d().(dead := w'.d().dead, held := w'.d().held, kqs := w'.d().kqs)
    ensures w'.d().held <==> w.d().held && !w'.d().dead
    ensures w'.d().kqs == if r.Some? then w.d().kqs - {kq} else w.d().kqs
    ensures if w.script == [] then w.clock < w'.clock || w.clock == U64_MAX else |w'.script| < |w.script|
    ensures r.Some? ==> Explains(l, d0, w', Ok(r.value)) && !r.value.Exited?
    ensures r.None? ==> w'.reading == w'.clock == now < l.deadline && w'.stdinWatched == w.stdinWatched
    ensures r.None? && l.stdin.Some? ==> now < l.stdin.value.lastActivity + l.idleLimit
    ensures r.None? <==> InTime(l, w)
    ensures r.None? ==> w'.script == Rest(w.script)
  {
    hide Replay;
    var reading;
    w', reading := ReadClock(w);
    now, r := reading.value, None;
    if DeadlineReached(now, l.deadline) {
      r := Some(TimedOut(WallClock));
    } else if l.stdin.Some? {
      var idle := ElapsedNs(l.stdin.value.lastActivity, now);
      if idle.Some? && idle.value >= l.idleLimit {
        r := Some(TimedOut(StdinIdle));
      }
    }
    if r.Some? {
      ghost var mid;
      w', mid := CloseKqueue(w', kq);
    }
  }

  /** Blocking keeps the loop invariant; the request to delete the stdin filter
      is made once. */
  method BlockLooping(ghost child: Child.RawChild, l: Watches, ghost t: CpuThrottleState?, ghost kq: int, pid: int,
                      now: U64, ghost d0: Digest, w: World)
      returns (w': World, l': Watches, wake: Wake, ghost fired: bool)
    requires Looping(l, t, child, kq, d0, w) && w.clock == w.reading == now < l.deadline
    ensures Unseen(l, w.d(), w'.d())
    ensures IsFault(wake) ==> d0.faults < w'.d().faults
    ensures Later(w, w') && w'.reading == now && OnlyWatched(w.d(), w'.d())
    ensures Looping(l', t, child, kq, AfterWake(d0, wake), w')
    ensures l' == l.(stdinFlag := if l.stdinFlag == Delete then NoOp else l.stdinFlag)
    ensures l.stdin.Some? ==> l.stdin.value.lastActivity <= now
    ensures w'.d().farthest <= Max(w.d().farthest, l.deadline)
    ensures fired == (wake.WakeEvent? && wake.filter == Timer)
    ensures w'.d().ticks == w.d().ticks + if fired then 1 else 0
    ensures fired ==> now + NextWake(l, now) <= w'.clock
    ensures wake.WakeEvent? && (if wake.error then wake.data == ESRCH else wake.filter == Proc) ==> w'.d().dead
    ensures wake.WakeError? && wake.errno == ESRCH ==> w'.d().dead
    ensures l.signalFd.None? ==> !(wake.WakeEvent? && wake.filter == Read)
    ensures w'.script == Rest(w.script)
    ensures LedTo(l, Now(w).wake, w.d().dead, wake)
  {
    hide Replay;
    w', wake, fired := Block(l, pid, now, w);
    l' := l.(stdinFlag := if l.stdinFlag == Delete then NoOp else l.stdinFlag);
  }

  lemma TimerMeansDue(l: Watches, now: U64, woken: U64, at: U64)
    requires l.stdin.Some? ==> l.stdin.value.lastActivity <= now
    requires now + NextWake(l, now) <= woken
    ensures woken <= at ==> SomeDue(l, at)
  {
    NextWakeIsTheNearest(l, now);
  }

  /** A wake-up that must end the wait has ended it. */
  ghost predicate FirstHeeded(l: Watches, e: Wake, rest: seq<Choice>, w: World, w': World, out: Turned) {
    MustEnd(l.signalFd, w.d().dead, e) ==>
      out.Done? && Heeds(l.signalFd, w.d().dead, e, rest, w.d(), w', out.result)
  }

  /** The choice e made for a wake-up has led to this one. */
  ghost predicate LedTo(l: Watches, e: Wake, dead: bool, wake: Wake) {
    && (PipeWakes(l.signalFd, e) ==> wake == e)
    && (dead && TimerOrExitWakes(e) ==> wake.WakeEvent? && wake.filter == Proc && !wake.error)
  }

  /** What acting on a wake-up other than the timer's owes to it. */
  ghost predicate Settles(l: Watches, wake: Wake, rest: seq<Choice>, d: Digest, w': World, out: Turned) {
    && (PipeWakes(l.signalFd, wake) ==> out == Done(Ok(Taken(Rest(rest)))) && w'.script == Rest(Rest(rest)))
    && (wake.WakeEvent? && wake.filter == Proc && !wake.error ==>
          out.Done? && if out.result.Ok? then out.result.value.Exited? else d.waitFailures < w'.d().waitFailures)
  }

  lemma SameForFlag(l: Watches, l1: Watches, wake: Wake, rest: seq<Choice>, d: Digest, w': World, out: Turned)
    requires l1.signalFd == l.signalFd && Settles(l1, wake, rest, d, w', out)
    ensures Settles(l, wake, rest, d, w', out)
  {
  }

  lemma SettledIsHeeded(l: Watches, e: Wake, wake: Wake, w: World, woken: World, w': World, out: Turned)
    requires LedTo(l, e, w.d().dead, wake) && w.d().waitFailures <= woken.d().waitFailures
    requires (wake.WakeEvent? && wake.filter == Timer) || Settles(l, wake, woken.script, woken.d(), w', out)
    ensures FirstHeeded(l, e, woken.script, w, w', out)
  {
  }

  /** Block and act on what woke us. */
  method BlockTurn(child: Child.RawChild, l: Watches, t: CpuThrottleState?, cfg: Config, pid: int, kq: int,
                   now: U64, ghost d0: Digest, w: World)
      returns (w': World, l': Watches, out: Turned, ghost fired: bool, ghost at: U64)
    requires Looping(l, t, child, kq, d0, w) && w.clock == w.reading == now < l.deadline
    modifies child, if t == null then {} else {t}
    ensures Unseen(l, w.d(), w'.d())
    ensures Later(w, w') && SameSettings(l, l') && child.Tracks(w')
    ensures w'.d().farthest <= Max(w.d().farthest, l.deadline)
    ensures w'.d().ticks == w.d().ticks + if fired then 1 else 0
    ensures out.Again? ==> Looping(l', t, child, kq, d0, w') && OnlyWatched(w.d(), w'.d())
    ensures out.Again? && !fired ==> SameDueTimes(l, l')
    ensures out.Again? && fired ==> at <= w'.clock && AllMoved(l, l', at) && SomeDue(l, at)
    ensures out.Done? ==> OnlyLeft(kq, w.d(), w'.d()) && Coupled(t, w')
    ensures out.Done? ==> (child.exited <==> out.result.Ok? && out.result.value.Exited?)
    ensures out.Done? ==> Explains(l', d0, w', out.result)
    ensures FirstHeeded(l, Now(w).wake, Rest(w.script), w, w', out)
  {
    hide Replay, Looping, Explains, Settles, LedTo, FirstHeeded, NextWake, Taken, Later;
    var wake, l1;
    w', l1, wake, fired := BlockLooping(child, l, t, kq, pid, now, d0, w);
    at := now;
    ghost var mid := w';
    LaterMeans(w, mid);
    if wake.WakeEvent? && wake.filter == Timer {
      ghost var woken := w'.clock;
      w', l', out, at := TimerTurn(child, l1, t, cfg, kq, d0, w');
      TimerMeansDue(l, now, woken, at);
    } else {
      w', l', out := EventTurn(child, l1, t, kq, wake, d0, w');
      SameForFlag(l, l1, wake, mid.script, mid.d(), w', out);
    }
    LaterStill(w, mid, w');
    SettledIsHeeded(l, Now(w).wake, wake, w, mid, w', out);
  }

  /** One turn of the wait loop. */
  method Turn(child: Child.RawChild, l: Watches, t: CpuThrottleState?, cfg: Config, pid: int, kq: int,
              ghost d0: Digest, w: World)
      returns (w': World, l': Watches, out: Turned, ghost fired: bool, ghost at: U64)
    requires Looping(l, t, child, kq, d0, w)
    modifies child, if t == null then {} else {t}
    ensures Unseen(l, w.d(), w'.d())
    ensures Later(w, w') && SameSettings(l, l') && child.Tracks(w')
    ensures w'.d().farthest <= Max(w.d().farthest, l.deadline)
    ensures w'.d().ticks == w.d().ticks + if fired then 1 else 0
    ensures out.Again? ==> Looping(l', t, child, kq, d0, w') && OnlyWatched(w.d(), w'.d())
    ensures out.Again? ==> w.clock < l.deadline
    ensures out.Again? ==> if w.script == [] then w.clock < w'.clock else |w'.script| < |w.script|
    ensures out.Again? && !fired ==> SameDueTimes(l, l')
    ensures out.Again? && fired ==> at <= w'.clock && AllMoved(l, l', at) && SomeDue(l, at)
    ensures out.Done? ==> OnlyLeft(kq, w.d(), w'.d()) && Coupled(t, w')
    ensures out.Done? ==> (child.exited <==> out.result.Ok? && out.result.value.Exited?)
    ensures out.Done? ==> Explains(l', d0, w', out.result)
    ensures InTime(l, w) ==> FirstHeeded(l, First(Rest(w.script)).wake, Rest(Rest(w.script)), w, w', out)
  {
    hide Replay;
    var now, r;
    w', now, r := Expired(l, kq, d0, w);
    l', fired, at := l, false, now;
    if r.Some? {
      out := Done(Ok(r.value));
    } else {
      w', l', out, fired, at := BlockTurn(child, l, t, cfg, pid, kq, now, d0, w');
    }
  }
}
