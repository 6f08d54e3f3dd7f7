/** The whole wait: preparation, the loop, and what its result means. */
module Wait {
  import opened Wrappers
  import opened TimeMath
  import opened Kernel
  import opened Throttle
  import opened Watch
  import opened WaitLoop
  import Child

  // ----- counting timer events

  /** The moments the watchdogs count from. */
  datatype Bases = Bases(start: U64, throttle: U64, stdin: U64)

  ghost predicate AllPaced(b: Bases, l: Watches, m: Moves) {
    && Paced(b.start, l.heartbeat, l.nextHeartbeat, m.heartbeat, l.deadline)
    && Paced(b.throttle, l.throttle, l.nextThrottle, m.throttle, l.deadline)
    && Paced(b.start, MemoryInterval(l), l.nextMemory, m.memory, l.deadline)
    && IdlePaced(b.stdin, l, m.stdin)
    && (m.heartbeat > 0 ==> l.heartbeat > 0)
    && (m.memory > 0 ==> l.memory.Some?)
  }

  /** Stdin activity has restarted the idle time m times since `base`, each time
      when it had run out and before the deadline. */
  ghost predicate IdlePaced(base: nat, l: Watches, m: nat) {
    && (l.stdin.Some? ==> l.stdin.value.lastActivity >= base + m * l.idleLimit)
    && (m > 0 ==> l.idleLimit > 0 && base + m * l.idleLimit < l.deadline)
  }

  /** Every sampling watchdog that is on has a positive interval. */
  predicate Positive(l: Watches) {
    l.throttle > 0 && (l.memory.Some? ==> l.memory.value.interval > 0)
  }

  function Total(m: Moves): nat { m.heartbeat + m.throttle + m.memory + m.stdin }

  function Counted(m: Moves, l: Watches, l': Watches): Moves {
    Moves(
      m.heartbeat + if l'.nextHeartbeat != l.nextHeartbeat then 1 else 0,
      m.throttle + if l'.nextThrottle != l.nextThrottle then 1 else 0,
      m.memory + if l'.nextMemory != l.nextMemory then 1 else 0,
      m.stdin + if l'.stdin.Some? && l.stdin.Some? && StdinMoved(l, l') then 1 else 0)
  }

  predicate StdinMoved(l: Watches, l': Watches)
    requires l.stdin.Some? && l'.stdin.Some?
  {
    l'.stdin.value.lastActivity >= l.stdin.value.lastActivity + l.idleLimit && l.idleLimit > 0
  }

  lemma OneMove(base: nat, interval: U64, due: U64, due': U64, m: nat, deadline: U64, now: U64)
    requires Paced(base, interval, due, m, deadline) && MovedOrNotDue(due, due', interval, now) && now < deadline
    ensures Paced(base, interval, due', if due' != due then m + 1 else m, deadline)
    ensures interval > 0 && due <= now ==> due' != due
    ensures due' != due ==> due <= now
  {
    if due <= now { PacedMove(base, interval, due, m, deadline, now); }
  }

  lemma OneIdleMove(base: nat, l: Watches, l': Watches, m: nat, now: U64)
    requires IdlePaced(base, l, m) && AllMoved(l, l', now) && SameSettings(l, l')
    ensures IdlePaced(base, l', if l'.stdin.Some? && l.stdin.Some? && StdinMoved(l, l') then m + 1 else m)
    ensures l.stdin.Some? && l.stdin.value.lastActivity + l.idleLimit <= now && l'.stdin.Some? ==> StdinMoved(l, l')
  {
    assert (m + 1) * l.idleLimit == m * l.idleLimit + l.idleLimit;
  }

  /** A timer event that does not end the wait moves a watchdog strictly later,
      or switches stdin off. */
  lemma TickIsPaidFor(b: Bases, l: Watches, l': Watches, m: Moves, now: U64)
    requires AllPaced(b, l, m) && AllMoved(l, l', now) && SomeDue(l, now) && SameSettings(l, l')
    requires l.heartbeat == 0 ==> l.nextHeartbeat == U64_MAX
    requires l.memory.None? ==> l.nextMemory == U64_MAX
    ensures AllPaced(b, l', Counted(m, l, l'))
    ensures Positive(l) ==>
              Total(Counted(m, l, l')) + (if l'.stdin.None? then 1 else 0)
              > Total(m) + (if l.stdin.None? then 1 else 0)
  {
    OneMove(b.start, l.heartbeat, l.nextHeartbeat, l'.nextHeartbeat, m.heartbeat, l.deadline, now);
    OneMove(b.throttle, l.throttle, l.nextThrottle, l'.nextThrottle, m.throttle, l.deadline, now);
    OneMove(b.start, MemoryInterval(l), l.nextMemory, l'.nextMemory, m.memory, l.deadline, now);
    OneIdleMove(b.stdin, l, l', m.stdin, now);
  }

  /** Other events leave the account as it was. */
  lemma QuietTurnKeepsPace(b: Bases, l: Watches, l': Watches, m: Moves)
    requires AllPaced(b, l, m) && SameDueTimes(l, l') && SameSettings(l, l')
    ensures AllPaced(b, l', m)
  {
  }

  function Fits(span: nat, interval: nat): nat { if interval == 0 then 0 else span / interval }

  /** How many timer events a wait can see. */
  function TickBound(b: Bases, l: Watches): nat
    requires b.start <= l.deadline && b.throttle <= l.deadline && b.stdin <= l.deadline
  {
    Fits(l.deadline - b.start, l.heartbeat)
    + Fits(l.deadline - b.throttle, l.throttle)
    + Fits(l.deadline - b.start, MemoryInterval(l))
    + Fits(l.deadline - b.stdin, l.idleLimit)
    + 2
  }

  lemma StdinMovesFit(base: nat, interval: nat, m: nat, deadline: nat)
    requires base <= deadline && interval > 0 && (m > 0 ==> base + m * interval < deadline)
    ensures m <= (deadline - base) / interval
  {
    MovesFit(base, interval, U64_MAX, m, deadline);
  }

  lemma MovesAreBounded(b: Bases, l: Watches, m: Moves)
    requires AllPaced(b, l, m) && Positive(l)
    requires b.start <= l.deadline && b.throttle <= l.deadline && b.stdin <= l.deadline
    ensures Total(m) + 2 <= TickBound(b, l)
  {
    if m.heartbeat > 0 { StdinMovesFit(b.start, l.heartbeat, m.heartbeat, l.deadline); }
    if m.throttle > 0 { StdinMovesFit(b.throttle, l.throttle, m.throttle, l.deadline); }
    if m.memory > 0 { StdinMovesFit(b.start, MemoryInterval(l), m.memory, l.deadline); }
    if m.stdin > 0 { StdinMovesFit(b.stdin, l.idleLimit, m.stdin, l.deadline); }
  }

  // ----- the method

  /** Drop the stdin watch if descriptor 0 is not open; in passthrough mode see
      at once whether there is input or none will come. */
  method PrepareStdin(stdin: Option<StdinWatch>, w: World) returns (w': World, r: Option<StdinWatch>)
    requires w.timebase && w.reading <= w.clock
    requires stdin.Some? ==> stdin.value.lastActivity <= w.reading
    ensures Later(w, w') && w'.reading <= w'.clock
    ensures w'.d() == w.d().(dead := w'.d().dead, held := w'.d().held, closed := w'.d().closed, lastInput := w'.d().lastInput)
    ensures w'.d().held <==> w.d().held && !w'.d().dead
    ensures r.Some? ==>
              && stdin.Some?
              && r.value == stdin.value.(lastActivity := r.value.lastActivity)
              && stdin.value.lastActivity <= r.value.lastActivity <= w'.clock
              && w'.d().closed == w.d().closed
              && (w'.d().lastInput == w.d().lastInput || w'.d().lastInput <= r.value.lastActivity)
    ensures !(stdin.Some? && stdin.value.mode == Passthrough) ==> w'.d().lastInput == w.d().lastInput
    ensures stdin.None? ==> w' == w && r.None?
    ensures stdin.Some? && Now(w).fails ==> r.None?
    ensures stdin.Some? && !Now(w).fails && stdin.value.mode == Consume ==> r == stdin
  {
    hide Replay;
    w', r := w, stdin;
    if stdin.None? { return; }
    var valid;
    w', valid := StdinIsValid(w);
    if !valid { return w', None; }
    if stdin.value.mode == Passthrough {
      var status;
      ghost var mid;
      w', status, mid := PollStdin(w');
      match status
      case Readable =>
        var now;
        w', now := ReadClock(w');
        r := Some(stdin.value.(lastActivity := now.value));
      case Eof => r := None;
      case Idle =>
    }
  }

  /** The loop variables before the first turn. */
  function InitialWatches(start: U64, timeoutNs: U64, heartbeat: Option<U64>, stdin: Option<StdinWatch>,
                          throttle: Option<(U64, U64)>, memory: Option<MemoryLimit>, signalFd: Option<int>): Watches {
    var hb := if heartbeat.Some? then heartbeat.value else 0;
    var th := if throttle.Some? then throttle.value.1 else U64_MAX;
    var enabled := stdin.Some? && stdin.value.mode == Consume;
    Watches(
      AdvanceNs(start, timeoutNs),
      hb,
      if hb > 0 then AdvanceNs(start, hb) else U64_MAX,
      th,
      if throttle.Some? && th < U64_MAX then AdvanceNs(throttle.value.0, th) else U64_MAX,
      memory,
      if memory.Some? && memory.value.interval < U64_MAX then AdvanceNs(start, memory.value.interval) else U64_MAX,
      if stdin.Some? then stdin.value.limit else 0,
      stdin,
      enabled,
      if enabled then Add else NoOp,
      signalFd)
  }

  /** What a result says about the wait that began in w and ended in w'. The wall
      clock result has two fallbacks: a readable signal pipe without a byte, and a
      child that could not be waited for. */
  ghost predicate Meaning(timeoutNs: U64, stdin: Option<StdinWatch>, memory: Option<MemoryLimit>,
                          signalFd: Option<int>, w: World, w': World, r: Result<WaitResult, Error>) {
    (w'.d().bytes == w.d().bytes || (r.Ok? && r.value.ReceivedSignal?)) &&
    match r
    case Ok(Exited(status)) => w'.d().reaped == Some(status)
    case Ok(TimedOut(WallClock)) =>
      || AdvanceNs(w.clock, timeoutNs) <= w'.clock
      || w.d().emptyPipes < w'.d().emptyPipes
      || w.d().waitFailures < w'.d().waitFailures
    case Ok(TimedOut(StdinIdle)) =>
      && stdin.Some?
      && stdin.value.lastActivity + stdin.value.limit <= w'.clock
      && w'.d().closed == w.d().closed
      && (w'.d().lastInput == w.d().lastInput || w'.d().lastInput + stdin.value.limit <= w'.clock)
    case Ok(MemoryLimitExceeded(limit, actual)) =>
      Exceeded(memory, w.d(), w'.d(), limit, actual)
    case Ok(ReceivedSignal(sig)) =>
      signalFd.Some? && Received(w.d(), w'.d(), sig)
    case Err(e) => Caused(w, w', e)
  }

  /** Why a wait can fail: the clock was not to be had, the queue was in trouble, or
      the child could not be waited for. */
  ghost predicate Caused(w: World, w': World, e: Error) {
    match e
    case Timebase => !w.timebase
    case Internal(_) => w.d().faults < w'.d().faults || w.d().waitFailures < w'.d().waitFailures
    case SpawnError(_) => w.d().waitFailures < w'.d().waitFailures
    case SignalError(_) => false
  }

  /** The most timer events a wait started at `start` can see. */
  function MaxTicks(start: U64, timeoutNs: U64, heartbeat: Option<U64>, stdin: Option<StdinWatch>,
                    throttle: Option<(U64, U64)>, memory: Option<MemoryLimit>): nat {
    var deadline := AdvanceNs(start, timeoutNs);
    Fits(deadline - start, if heartbeat.Some? then heartbeat.value else 0)
    + (if throttle.Some? && throttle.value.0 <= start then Fits(deadline - throttle.value.0, throttle.value.1) else 0)
    + Fits(deadline - start, if memory.Some? then memory.value.interval else 0)
    + (if stdin.Some? && stdin.value.lastActivity <= start then Fits(deadline - stdin.value.lastActivity, stdin.value.limit) else 0)
    + 2
  }

  /** The loop invariant, the account of timer events and the settings together. */
  ghost predicate Underway(b: Bases, l0: Watches, l: Watches, m: Moves, t: CpuThrottleState?, child: Child.RawChild,
                           kq: int, d0: Digest, w: World)
    reads t, child
  {
    && Looping(l, t, child, kq, d0, w)
    && AllPaced(b, l, m)
    && SameSettings(l0, l)
    && (l0.stdin.None? ==> l.stdin.None?)
    && (Positive(l0) ==> w.d().ticks - d0.ticks <= Total(m) + if l.stdin.None? then 1 else 0)
  }

  lemma OneTurnOn(b: Bases, l0: Watches, l: Watches, l': Watches, m: Moves, t: CpuThrottleState?, child: Child.RawChild,
                  kq: int, d0: Digest, ticks: nat, fired: bool, at: U64, w': World)
      returns (m': Moves)
    requires AllPaced(b, l, m) && SameSettings(l0, l) && SameSettings(l, l')
    requires Positive(l0) ==> ticks - d0.ticks <= Total(m) + if l.stdin.None? then 1 else 0
    requires Looping(l', t, child, kq, d0, w') && w'.d().ticks == ticks + if fired then 1 else 0
    requires if fired then AllMoved(l, l', at) && SomeDue(l, at) else SameDueTimes(l, l')
    requires l.heartbeat == 0 ==> l.nextHeartbeat == U64_MAX
    requires l.memory.None? ==> l.nextMemory == U64_MAX
    ensures Underway(b, l0, l', m', t, child, kq, d0, w')
  {
    hide Replay;
    if fired {
      TickIsPaidFor(b, l, l', m, at);
      m' := Counted(m, l, l');
    } else {
      QuietTurnKeepsPace(b, l, l', m);
      m' := m;
    }
  }

  lemma UnsetAreOff(l: Watches, t: CpuThrottleState?, child: Child.RawChild, kq: int, d0: Digest, w: World)
    requires Looping(l, t, child, kq, d0, w)
    ensures l.heartbeat == 0 ==> l.nextHeartbeat == U64_MAX
    ensures l.memory.None? ==> l.nextMemory == U64_MAX
  {
  }

  lemma BoundStays(b: Bases, l: Watches, l': Watches)
    requires SameSettings(l, l') && b.start <= l.deadline && b.throttle <= l.deadline && b.stdin <= l.deadline
    ensures TickBound(b, l') == TickBound(b, l) && (Positive(l') <==> Positive(l))
  {
  }

  /** Run the loop to its end. Every turn that goes on uses up some of the script
      or, in a quiet world, some of the time left. */
  method Loop(child: Child.RawChild, ghost b: Bases, l0: Watches, t: CpuThrottleState?, cfg: Config, pid: int, kq: int, w: World)
      returns (w': World, r: Result<WaitResult, Error>, ghost l: Watches)
    requires Looping(l0, t, child, kq, w.d(), w) && AllPaced(b, l0, Moves(0, 0, 0, 0))
    requires b.start <= l0.deadline && b.throttle <= l0.deadline && b.stdin <= l0.deadline
    modifies child, if t == null then {} else {t}
    ensures Later(w, w') && SameSettings(l0, l) && child.Tracks(w') && Coupled(t, w')
    ensures OnlyLeft(kq, w.d(), w'.d())
    ensures w'.d().farthest <= Max(w.d().farthest, l0.deadline)
    ensures child.exited <==> r.Ok? && r.value.Exited?
    ensures Explains(l, w.d(), w', r)
    ensures Positive(l0) ==> w'.d().ticks - w.d().ticks <= TickBound(b, l0)
    ensures Unseen(l0, w.d(), w'.d())
    ensures InTime(l0, w) && MustEnd(l0.signalFd, w.d().dead, First(Rest(w.script)).wake) ==>
              Heeds(l0.signalFd, w.d().dead, First(Rest(w.script)).wake, Rest(Rest(w.script)), w.d(), w', r)
  {
    hide Replay, Heeds, InTime, MustEnd, Later, Looping, AllPaced, Explains, TickBound;
    LaterSelf(w);
    var lw := l0;
    ghost var first := true;
    ghost var m := Moves(0, 0, 0, 0);
    w', l := w, l0;
    while true
      invariant Underway(b, l0, lw, m, t, child, kq, w.d(), w')
      invariant Later(w, w') && OnlyWatched(w.d(), w'.d())
      invariant w'.d().farthest <= Max(w.d().farthest, l0.deadline)
      invariant Unseen(l0, w.d(), w'.d())
      invariant if first then w' == w && lw == l0
                else !(InTime(l0, w) && MustEnd(l0.signalFd, w.d().dead, First(Rest(w.script)).wake))
      decreases |w'.script|, if w'.clock < l0.deadline then l0.deadline - w'.clock else 0
    {
      ghost var before, held := lw, w';
      UnsetAreOff(lw, t, child, kq, w.d(), w');
      BoundStays(b, l0, lw);
      var out;
      ghost var fired, at;
      w', lw, out, fired, at := Turn(child, lw, t, cfg, pid, kq, w.d(), w');
      LaterStill(w, held, w');
      LaterMeans(held, w');
      if Positive(l0) { MovesAreBounded(b, before, m); }
      if out.Done? {
        return w', out.result, lw;
      }
      m := OneTurnOn(b, l0, before, lw, m, t, child, kq, w.d(), held.d().ticks, fired, at, w');
      first := false;
    }
  }

  lemma BasesHold(b: Bases, start: U64, timeoutNs: U64, heartbeat: Option<U64>, stdin: Option<StdinWatch>,
                  throttle: Option<(U64, U64)>, memory: Option<MemoryLimit>, signalFd: Option<int>)
    requires b.start == start && (throttle.Some? ==> b.throttle == throttle.value.0)
    requires stdin.Some? ==> b.stdin <= stdin.value.lastActivity
    ensures AllPaced(b, InitialWatches(start, timeoutNs, heartbeat, stdin, throttle, memory, signalFd), Moves(0, 0, 0, 0))
  {
  }

  /** What the preparation of a wait can change, short of its queue. */
  ghost predicate OnlyBegun(d0: Digest, d1: Digest) {
    d1 == d0.(dead := d1.dead, held := d1.held, closed := d1.closed, lastInput := d1.lastInput, faults := d1.faults)
  }

  /** The queue opened by the preparation and closed by the loop, the digest of the whole
      wait differs only as the loop's does. */
  lemma LeftAsItWas(d0: Digest, d1: Digest, d: Digest, d': Digest, kq: int, l: Watches)
    requires OnlyBegun(d0, d1) && kq !in d1.kqs && d == d1.(kqs := d1.kqs + {kq})
    requires OnlyLeft(kq, d, d') && Unseen(l, d, d')
    ensures Undisturbed(d0, d') && d'.kqs == d0.kqs
    ensures d.farthest == d0.farthest && d.ticks == d0.ticks && d.bytes == d0.bytes && d.memory == d0.memory
    ensures d.emptyPipes == d0.emptyPipes && d.waitFailures == d0.waitFailures
    ensures d.closed == d1.closed && d.lastInput == d1.lastInput
    ensures Deaf(l) ==> d'.lastInput == d1.lastInput
    ensures l.memory.None? ==> d'.memory == d0.memory
  {
    OpenThenClosed(d1.kqs, kq);
  }

  lemma NothingLeft(d0: Digest, d1: Digest)
    requires OnlyBegun(d0, d1)
    ensures Undisturbed(d0, d1) && d1.kqs == d0.kqs && d1.farthest == d0.farthest && d1.ticks == d0.ticks
    ensures d1.bytes == d0.bytes && d1.memory == d0.memory && d1.attempts == d0.attempts && d1.reaped == d0.reaped
  {
  }

  lemma InStepStill(child: Child.RawChild, t: CpuThrottleState?, w: World, w': World)
    requires child.Tracks(w) && Coupled(t, w)
    requires w'.d().reaped == w.d().reaped && (w.d().dead ==> w'.d().dead)
    requires w'.d().held <==> w.d().held && !w'.d().dead
    ensures child.Tracks(w') && Coupled(t, w')
  {
  }

  /** Read the clock and look at stdin. */
  method LookAhead(stdin: Option<StdinWatch>, w: World)
      returns (w': World, ready: bool, start: U64, watched: Option<StdinWatch>)
    requires w.reading <= w.clock
    requires stdin.Some? ==> stdin.value.lastActivity <= w.reading
    ensures Later(w, w') && OnlyBegun(w.d(), w'.d()) && w'.reading <= w'.clock
    ensures (w'.d().held <==> w.d().held && !w'.d().dead) && (w.d().dead ==> w'.d().dead)
    ensures w.timebase ==> ready
    ensures ready ==> w'.timebase
    ensures w.clock <= start <= w'.clock && start == ClockAfter(w.clock, w.script, 1)
    ensures stdin.None? ==> w'.clock == start && w'.script == Rest(w.script)
    ensures ready && watched.Some? ==>
              && stdin.Some?
              && watched.value == stdin.value.(lastActivity := watched.value.lastActivity)
              && stdin.value.lastActivity <= watched.value.lastActivity <= w'.clock
              && w'.d().closed == w.d().closed
              && (w'.d().lastInput == w.d().lastInput || w'.d().lastInput <= watched.value.lastActivity)
    ensures !(stdin.Some? && stdin.value.mode == Passthrough) ==> w'.d().lastInput == w.d().lastInput
  {
    hide Replay, ClockAfter, Later;
    var reading;
    w', reading := ReadClock(w);
    ghost var timed := w';
    LaterMeans(w, timed);
    start, watched, ready := w'.clock, stdin, reading.Some?;
    if ready {
      w', watched := PrepareStdin(stdin, w');
      LaterStill(w, timed, w');
      LaterMeans(timed, w');
    }
  }

  /** Read the clock, look at stdin and open the queue. */
  method Begin(stdin: Option<StdinWatch>, w: World)
      returns (w': World, r: Result<int, Error>, start: U64, watched: Option<StdinWatch>, ghost d1: Digest)
    requires w.reading <= w.clock
    requires stdin.Some? ==> stdin.value.lastActivity <= w.reading
    ensures Later(w, w') && (w'.d().held <==> w.d().held && !w'.d().dead)
    ensures w.timebase || r.Ok? ==> w'.timebase
    ensures w.clock <= start <= w'.clock && start == ClockAfter(w.clock, w.script, 1)
    ensures OnlyBegun(w.d(), d1)
    ensures r.Err? ==> Caused(w, w', r.error)
    ensures stdin.None? && w.timebase ==>
              && (r.Ok? <==> !First(Rest(w.script)).fails && First(Rest(w.script)).fd !in w.d().kqs)
              && w'.clock == ClockAfter(w.clock, w.script, 2) && w'.script == Drop(w.script, 2)
    ensures w.d().dead ==> d1.dead
    ensures if r.Ok? then r.value !in d1.kqs && w'.d() == d1.(kqs := d1.kqs + {r.value}) else w'.d() == d1
    ensures r.Ok? ==> !w'.stdinWatched && w'.reading <= w'.clock
    ensures r.Ok? && watched.Some? ==>
              && stdin.Some?
              && watched.value == stdin.value.(lastActivity := watched.value.lastActivity)
              && stdin.value.lastActivity <= watched.value.lastActivity <= w'.clock
              && d1.closed == w.d().closed
              && (d1.lastInput == w.d().lastInput || d1.lastInput <= watched.value.lastActivity)
    ensures !(stdin.Some? && stdin.value.mode == Passthrough) ==> d1.lastInput == w.d().lastInput
  {
    OneCallMore(w.clock, w.script, 0);
    OneCallMore(w.clock, w.script, 1);
    hide Replay, ClockAfter, Drop, Later;
    var ready, kq;
    w', ready, start, watched := LookAhead(stdin, w);
    ghost var looked, mid := w', w'.d();
    LaterMeans(w, looked);
    d1 := mid;
    if !ready {
      return w', Err(Timebase), start, watched, d1;
    }
    w', kq, mid := OpenKqueue(w');
    LaterStill(w, looked, w');
    LaterMeans(looked, w');
    d1 := if kq.Some? then mid else w'.d();
    r := if kq.Some? then Ok(kq.value) else Err(Internal(0));
  }

  lemma TicksAgree(b: Bases, timeoutNs: U64, heartbeat: Option<U64>, stdin: Option<StdinWatch>, watched: Option<StdinWatch>,
                   throttle: Option<(U64, U64)>, memory: Option<MemoryLimit>, signalFd: Option<int>)
    requires b.throttle == if throttle.Some? then throttle.value.0 else b.start
    requires b.throttle <= b.start && timeoutNs <= MAX_TIMER_NS
    requires stdin.Some? ==> b.stdin == stdin.value.lastActivity <= b.start
    requires stdin.None? ==> b.stdin == b.start
    requires watched.Some? ==> stdin.Some? && watched.value.limit == stdin.value.limit
    ensures TickBound(b, InitialWatches(b.start, timeoutNs, heartbeat, watched, throttle, memory, signalFd))
            <= MaxTicks(b.start, timeoutNs, heartbeat, stdin, throttle, memory)
  {
    assert throttle.None? ==> Fits(AdvanceNs(b.start, timeoutNs) - b.throttle, U64_MAX) == 0;
  }

  /** The loop's account of its result, in terms of the caller's arguments. */
  lemma ExplainedIsMeant(timeoutNs: U64, start: U64, stdin: Option<StdinWatch>, watched: Option<StdinWatch>,
                         l: Watches, w: World, d: Digest, w': World, r: Result<WaitResult, Error>)
    requires Explains(l, d, w', r)
    requires w.clock <= start && l.deadline == AdvanceNs(start, timeoutNs)
    requires d.emptyPipes == w.d().emptyPipes && d.waitFailures == w.d().waitFailures && w.d().faults <= d.faults
    requires d.bytes == w.d().bytes && d.memory == w.d().memory
    requires l.stdin.Some? ==>
               && watched.Some? && stdin.Some?
               && l.idleLimit == watched.value.limit == stdin.value.limit
               && stdin.value.lastActivity <= watched.value.lastActivity <= l.stdin.value.lastActivity
               && d.closed == w.d().closed
               && (d.lastInput == w.d().lastInput || d.lastInput <= watched.value.lastActivity)
    ensures Meaning(timeoutNs, stdin, l.memory, l.signalFd, w, w', r)
  {
  }

  lemma ErrorsMeanTheirCause(timeoutNs: U64, stdin: Option<StdinWatch>, memory: Option<MemoryLimit>, signalFd: Option<int>,
                          w: World, w': World, e: Error)
    requires Caused(w, w', e) && w'.d().bytes == w.d().bytes
    ensures Meaning(timeoutNs, stdin, memory, signalFd, w, w', Err(e))
  {
  }

  /** The first turn can be taken. */
  lemma LoopCanStart(child: Child.RawChild, b: Bases, timeoutNs: U64, heartbeat: Option<U64>, stdin: Option<StdinWatch>,
                     throttle: Option<(U64, U64)>, t: CpuThrottleState?, memory: Option<MemoryLimit>,
                     signalFd: Option<int>, kq: int, w: World)
    requires child.Tracks(w) && !child.exited && Coupled(t, w)
    requires w.timebase && w.reading <= w.clock && kq in w.d().kqs && !w.stdinWatched
    requires t != null ==> w.d().attempts == Nothing
    requires throttle.Some? <==> t != null
    requires throttle.Some? ==> b.throttle == throttle.value.0
    requires stdin.Some? ==> b.stdin <= stdin.value.lastActivity <= w.clock
    requires b.start <= w.clock && timeoutNs <= MAX_TIMER_NS
    ensures var l := InitialWatches(b.start, timeoutNs, heartbeat, stdin, throttle, memory, signalFd);
            Looping(l, t, child, kq, w.d(), w) && AllPaced(b, l, Moves(0, 0, 0, 0))
  {
    hide Replay;
    BasesHold(b, b.start, timeoutNs, heartbeat, stdin, throttle, memory, signalFd);
  }

  lemma WatchesAtStart(start: U64, timeoutNs: U64, heartbeat: Option<U64>, stdin: Option<StdinWatch>,
                       throttle: Option<(U64, U64)>, memory: Option<MemoryLimit>, signalFd: Option<int>)
    ensures var l := InitialWatches(start, timeoutNs, heartbeat, stdin, throttle, memory, signalFd);
            && start <= l.deadline == AdvanceNs(start, timeoutNs)
            && l.stdin == stdin && l.memory == memory && l.signalFd == signalFd
            && (stdin.Some? ==> l.idleLimit == stdin.value.limit)
            && ((throttle.Some? ==> throttle.value.1 > 0) && (memory.Some? ==> memory.value.interval > 0) ==> Positive(l))
  {
  }

  /** The environment lets the wait get as far as its first kevent, with time left. */
  ghost predicate ReachesKevent(timeoutNs: U64, clock: U64, script: seq<Choice>, kqs: set<int>) {
    var open := First(Rest(script));
    && !open.fails && open.fd !in kqs
    && ClockAfter(clock, script, 3) < AdvanceNs(ClockAfter(clock, script, 1), timeoutNs)
  }

  /** What the environment would have the first kevent report. */
  function FirstAsked(script: seq<Choice>): Wake { First(Drop(script, 3)).wake }

  lemma FirstTurnIsHeeded(timeoutNs: U64, signalFd: Option<int>, l: Watches, w: World, w1: World, w': World,
                          r: Result<WaitResult, Error>)
    requires l.stdin.None? && l.signalFd == signalFd && Later(w, w1)
    requires l.deadline == AdvanceNs(ClockAfter(w.clock, w.script, 1), timeoutNs)
    requires w1.clock == ClockAfter(w.clock, w.script, 2) && w1.script == Drop(w.script, 2)
    requires InTime(l, w1) && MustEnd(signalFd, w1.d().dead, First(Rest(w1.script)).wake) ==>
               Heeds(signalFd, w1.d().dead, First(Rest(w1.script)).wake, Rest(Rest(w1.script)), w1.d(), w', r)
    ensures ReachesKevent(timeoutNs, w.clock, w.script, w.d().kqs) && MustEnd(signalFd, w.d().dead, FirstAsked(w.script)) ==>
              Heeds(signalFd, w.d().dead, FirstAsked(w.script), Drop(w.script, 4), w.d(), w', r)
  {
    OneCallMore(w.clock, w.script, 2);
    OneCallMore(w.clock, w.script, 3);
    hide ClockAfter, Drop, Taken;
  }

  /** Wait for the child under the given watchdogs. */
  method WaitWithKqueue(child: Child.RawChild, pid: int, timeout: Duration, heartbeat: Option<U64>,
                        stdin: Option<StdinWatch>, t: CpuThrottleState?, cfg: Config,
                        memory: Option<MemoryLimit>, signalFd: Option<int>, w: World)
      returns (w': World, r: Result<WaitResult, Error>, ghost start: U64)
    requires child.Tracks(w) && !child.exited && Coupled(t, w) && w.reading <= w.clock
    requires t != null ==> w.d().attempts == Nothing && t.lastWall <= w.clock
    requires stdin.Some? ==> stdin.value.lastActivity <= w.reading
    modifies child, if t == null then {} else {t}
    // the child, the throttle and the queue afterwards
    ensures Later(w, w') && child.Tracks(w') && Coupled(t, w')
    ensures child.exited <==> r.Ok? && r.value.Exited?
    ensures Undisturbed(w.d(), w'.d())
    ensures w'.d().kqs == w.d().kqs
    ensures w.timebase || r.Ok? ==> w'.timebase
    // the result
    ensures Meaning(DurationToNs(timeout), stdin, memory, signalFd, w, w', r)
    // the timer
    ensures w.clock <= start <= w'.clock && start == ClockAfter(w.clock, w.script, 1)
    ensures w'.d().farthest <= Max(w.d().farthest, AdvanceNs(start, DurationToNs(timeout)))
    ensures (t != null ==> cfg.intervalNs > 0) && (memory.Some? ==> memory.value.interval > 0) ==>
              w'.d().ticks - w.d().ticks <=
                MaxTicks(start, DurationToNs(timeout), heartbeat, stdin,
                         if t == null then None else Some((old(t.lastWall), cfg.intervalNs)), memory)
    // without the signal pipe, consumed stdin is never seen; without a limit, memory is not sampled
    ensures signalFd.None? && !(stdin.Some? && stdin.value.mode == Passthrough) ==> w'.d().lastInput == w.d().lastInput
    ensures memory.None? ==> w'.d().memory == w.d().memory
    // the first wake-up is heeded
    ensures stdin.None? && w.timebase && ReachesKevent(DurationToNs(timeout), w.clock, w.script, w.d().kqs)
            && MustEnd(signalFd, w.d().dead, FirstAsked(w.script)) ==>
              Heeds(signalFd, w.d().dead, FirstAsked(w.script), Drop(w.script, 4), w.d(), w', r)
  {
    hide Replay, Looping, AllPaced, Explains, Meaning, TickBound, MaxTicks, Coupled, InitialWatches, Positive;
    hide DurationToNs, AdvanceNs, Caused, ClockAfter, Drop, Heeds, MustEnd, InTime, OnlyBegun, OnlyLeft, Unseen,
      Undisturbed, Later;
    var throttle := if t == null then None else Some((t.lastWall, cfg.intervalNs));
    var timeoutNs := DurationToNs(timeout);
    var kq, begun, watched;
    ghost var d1;
    w', kq, begun, watched, d1 := Begin(stdin, w);
    start := begun;
    NothingLeft(w.d(), d1);
    InStepStill(child, t, w, w');
    if kq.Err? {
      ErrorsMeanTheirCause(timeoutNs, stdin, memory, signalFd, w, w', kq.error);
      return w', Err(kq.error), start;
    }
    WatchesAtStart(begun, timeoutNs, heartbeat, watched, throttle, memory, signalFd);
    var l := InitialWatches(begun, timeoutNs, heartbeat, watched, throttle, memory, signalFd);
    ghost var b := Bases(start, if t == null then start else t.lastWall, if stdin.Some? then stdin.value.lastActivity else start);
    TicksAgree(b, timeoutNs, heartbeat, stdin, watched, throttle, memory, signalFd);
    LoopCanStart(child, b, timeoutNs, heartbeat, watched, throttle, t, memory, signalFd, kq.value, w');
    ghost var d, lEnd, entered := w'.d(), l, w';
    w', r, lEnd := Loop(child, b, l, t, cfg, pid, kq.value, w');
    LeftAsItWas(w.d(), d1, d, w'.d(), kq.value, l);
    LaterStill(w, entered, w');
    if stdin.None? && w.timebase {
      FirstTurnIsHeeded(timeoutNs, signalFd, l, w, entered, w', r);
    }
    ExplainedIsMeant(timeoutNs, start, stdin, watched, lEnd, w, d, w', r);
  }
}
