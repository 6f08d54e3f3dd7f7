/** The operating system as the supervisor sees it: one child process, a
    monotone clock, kqueue descriptors, and a trace of what happened.

    The environment is a finite script of choices. Every system call takes the
    next one, so a theorem about all scripts covers every order of events, every
    errno and every delay. When the script is used up the world goes quiet: time
    passes by itself, blocking waits succeed and armed timers fire. */
module Kernel {
  import opened Wrappers
  import opened TimeMath

  const EINTR := 4
  const ESRCH := 3
  const EBADF := 9
  const ECHILD := 10
  const ENOENT := 2

  const SIGKILL := 9
  const SIGTERM := 15
  const SIGSTOP := 17
  const SIGCONT := 19

  // ----- what a trace records

  datatype Sender = Throttle | Supervisor

  /** `Fallback` marks the direct kill that follows a killpg answered ESRCH. */
  datatype Target = Group | Process | Fallback

  datatype WaitOutcome = GotStatus(status: int) | Failed(errno: int) | StillRunning

  datatype Filter = Proc | Timer | Read

  datatype Wake =
    | WakeError(errno: int)
    | WakeEvent(filter: Filter, ident: int, eof: bool, error: bool, data: int)

  /** Stdin has something to say. */
  predicate IsStdinEvent(e: Wake) { e.WakeEvent? && e.filter == Read && e.ident == 0 && !e.error }

  /** The queue itself is in trouble: the call failed, or a registration did, in a
      way that is neither an interruption nor the process's or stdin's absence. */
  predicate IsFault(e: Wake) {
    match e
    case WakeError(errno) => errno != EINTR && errno != ESRCH
    case WakeEvent(filter, ident, _, error, data) =>
      filter != Timer && error && data != ESRCH && !(filter == Read && ident == 0 && (data == EBADF || data == ENOENT))
  }

  datatype Event =
    | Died
    | Kill(who: Sender, sig: int, to: Target, delivered: bool, at: nat)
    | WaitCall(blocking: bool)
    | WaitReturn(blocking: bool, outcome: WaitOutcome)
    | KqOpen(fd: int)
    | KqClose(fd: int)
    | Armed(until: nat)
    | Woke(wake: Wake)
    | Input(at: nat)
    | InputClosed
    | PipeByte(sig: int)
    | PipeEmpty
    | MemSample(bytes: nat)
    | HookRan
    | Fault(errno: int)
    | CpuRead(at: nat, cpu: nat)
    | Napping(at: nat, ns: nat)
    | Looked(errno: int)

  /** The supervisor's own signals so far, latest last. */
  datatype History = Nothing | After(before: History, sig: int, to: Target, at: nat)

  /** How often something was read, and what came last. */
  datatype Tally = Tally(count: nat, last: int)

  /** The calls of wait4 so far: those that only ask, and those that wait. */
  datatype Calls = Calls(asks: nat, waits: nat)

  /** The processor-time samples so far, latest last: the moment each is for, the
      time it showed, and whether the child was held when it was taken. */
  datatype Samples = NoSample | Took(before: Samples, at: nat, cpu: nat, held: bool)

  /** A sleep asked for: when, and for how long. */
  datatype Nap = Nap(at: nat, ns: nat)

  /** The looks at a file so far, latest last: the first sleep asked for since the
      one before, and what stat answered. */
  datatype Looks = NoLook | Look(before: Looks, nap: Option<Nap>, errno: int)

  /** Reads, waits, samples and looks, kept apart from the rest. */
  datatype Notes = Notes(ready: Tally, calls: Calls, samples: Samples, nap: Option<Nap>, looks: Looks)

  /** A running summary of a trace. `held` says the throttle has stopped the
      child and it is still alive; `breaches` counts the entries that break the
      rules `Disciplined` spells out, `vain` those that break `NoWaitInVain`, and
      `faults` what the kernel's queues refused. */
  datatype Digest = Digest(
    dead: bool,
    held: bool,
    reaped: Option<int>,
    attempts: History,
    kqs: set<int>,
    farthest: nat,
    ticks: nat,
    lastInput: nat,
    closed: nat,
    bytes: Tally,
    emptyPipes: nat,
    waitFailures: nat,
    memory: Tally,
    hooks: nat,
    faults: nat,
    notes: Notes,
    vain: nat,
    breaches: nat)

  const INITIAL: Digest := Digest(
    false, false, None, Nothing, {}, 0, 0, 0, 0, Tally(0, 0), 0, 0, Tally(0, 0), 0, 0,
    Notes(Tally(0, 0), Calls(0, 0), NoSample, None, NoLook), 0, 0)

  function Count(t: Tally, x: int): Tally { Tally(t.count + 1, x) }

  function WithReady(n: Notes, ident: int): Notes { n.(ready := Count(n.ready, ident)) }

  function WithNap(n: Notes, at: nat, ns: nat): Notes { if n.nap.Some? then n else n.(nap := Some(Nap(at, ns))) }

  function WithLook(n: Notes, errno: int): Notes { n.(looks := Look(n.looks, n.nap, errno), nap := None) }

  function WithSample(n: Notes, at: nat, cpu: nat, held: bool): Notes { n.(samples := Took(n.samples, at, cpu, held)) }

  function Called(c: Calls, blocking: bool): Calls {
    if blocking then c.(waits := c.waits + 1) else c.(asks := c.asks + 1)
  }

  predicate IsStop(e: Event) { e.Kill? && e.who == Throttle && e.sig == SIGSTOP }

  predicate IsCont(e: Event) { e.Kill? && e.who == Throttle && e.sig == SIGCONT }

  predicate IsTerm(e: Event) { e.Kill? && e.who == Supervisor }

  predicate IsReap(e: Event) { e.WaitReturn? && e.outcome.GotStatus? }

  function One(b: bool): nat { if b then 1 else 0 }

  function Step(d: Digest, e: Event): Digest {
    match e
    case Died => d.(dead := true, held := false)
    case Kill(who, sig, to, delivered, at) =>
      d.(held := if IsStop(e) && delivered then !d.dead
                 else if IsCont(e) && delivered then false
                 else d.held,
         attempts := if IsTerm(e) && to != Fallback then After(d.attempts, sig, to, at) else d.attempts,
         breaches := d.breaches + One(d.reaped.Some? || (IsTerm(e) && d.held) || (IsStop(e) && d.attempts.After?)))
    case WaitCall(blocking) =>
      d.(breaches := d.breaches + One(d.reaped.Some? || (blocking && d.held)),
         notes := d.notes.(calls := Called(d.notes.calls, blocking)),
         vain := d.vain + One(blocking && !d.dead && d.attempts == Nothing))
    case WaitReturn(blocking, outcome) =>
      d.(reaped := if outcome.GotStatus? then Some(outcome.status) else d.reaped,
         waitFailures := if outcome.Failed? && !(blocking && outcome.errno == EINTR) then d.waitFailures + 1 else d.waitFailures)
    case KqOpen(fd) => d.(kqs := d.kqs + {fd}, breaches := d.breaches + One(fd in d.kqs))
    case KqClose(fd) => d.(kqs := d.kqs - {fd}, breaches := d.breaches + One(fd !in d.kqs))
    case Armed(until) => d.(farthest := Max(d.farthest, until))
    case Woke(wake) =>
      d.(ticks := d.ticks + One(wake.WakeEvent? && wake.filter == Timer),
         closed := d.closed + One(IsStdinEvent(wake) && wake.eof),
         faults := d.faults + One(IsFault(wake)),
         notes := if wake.WakeEvent? && wake.filter == Read then WithReady(d.notes, wake.ident) else d.notes)
    case Input(at) => d.(lastInput := at)
    case InputClosed => d.(closed := d.closed + 1)
    case PipeByte(sig) => d.(bytes := Count(d.bytes, sig))
    case PipeEmpty => d.(emptyPipes := d.emptyPipes + 1)
    case MemSample(bytes) => d.(memory := Count(d.memory, bytes))
    case HookRan => d.(hooks := d.hooks + 1, breaches := d.breaches + One(d.attempts.After?))
    case Fault(_) => d.(faults := d.faults + 1)
    case CpuRead(at, cpu) => d.(notes := WithSample(d.notes, at, cpu, d.held))
    case Napping(at, ns) => d.(notes := WithNap(d.notes, at, ns))
    case Looked(errno) => d.(notes := WithLook(d.notes, errno))
  }

  function Replay(t: seq<Event>): Digest {
    if t == [] then INITIAL else Step(Replay(t[..|t| - 1]), t[|t| - 1])
  }

  // ----- the environment's moves

  datatype Poll = Readable | Idle | Eof

  /** What the world does during one system call: `dt` nanoseconds pass, the
      child may burn `dcpu` of processor time or die, and the call itself gets
      whichever of the other answers it asks for. */
  datatype Choice = Choice(
    dt: nat,
    dcpu: nat,
    dies: bool,
    fails: bool,
    lags: bool,
    errno: int,
    wake: Wake,
    bytes: int,
    poll: Poll,
    mem: nat,
    status: int,
    fd: int)

  const QUIET: Choice := Choice(1, 0, false, false, false, 0, WakeEvent(Timer, 1, false, false, 0), 0, Idle, 0, 0, 0)

  datatype LogRep = LogOf(trace: seq<Event>, d: Digest)

  /** A trace together with its digest. */
  type Log = l: LogRep | l.d == Replay(l.trace) && !(l.d.held && l.d.dead) witness LogOf([], INITIAL)

  datatype World = World(
    clock: U64,
    reading: U64,      // the latest answer the clock gave
    cpu: U64,
    timebase: bool,    // the timebase ratio has been cached
    stdinWatched: bool, // the open kqueue has a stdin filter
    cores: nat,        // how many processors the child can keep busy
    fileComes: bool,   // the file waited for is there once the script is used up
    log: Log,
    script: seq<Choice>)
  {
    function d(): Digest { log.d }
  }

  function Append(l: Log, e: Event): (r: Log)
    ensures r.trace == l.trace + [e] && r.d == Step(l.d, e)
  {
    assert (l.trace + [e])[..|l.trace|] == l.trace;
    LogOf(l.trace + [e], Step(l.d, e))
  }

  function First(script: seq<Choice>): Choice { if script == [] then QUIET else script[0] }

  function Now(w: World): Choice { First(w.script) }

  function Rest(script: seq<Choice>): seq<Choice> { if script == [] then [] else script[1..] }

  /** What kill answers next. */
  function KillAnswer(script: seq<Choice>): int { if First(script).fails then First(script).errno else 0 }

  /** What is left of the script after so many calls. */
  function Drop(script: seq<Choice>, calls: nat): seq<Choice> {
    if calls == 0 then script else Drop(Rest(script), calls - 1)
  }

  /** All that happened to the notes is waiting. */
  predicate OnlyWaits(n1: Notes, n2: Notes) {
    && n2 == n1.(calls := n2.calls)
    && n2.calls.asks == n1.calls.asks && n1.calls.waits <= n2.calls.waits
  }

  function Length(h: History): nat {
    match h
    case Nothing => 0
    case After(before, _, _, _) => Length(before) + 1
  }

  /** What the clock says once so many calls have been made. */
  function ClockAfter(clock: U64, script: seq<Choice>, calls: nat): U64
    decreases calls
  {
    if calls == 0 then clock
    else
      ClockAfter(AdvanceNs(clock, Min(First(script).dt, U64_MAX)), Rest(script), calls - 1)
  }

  lemma {:induction false} OneCallMore(clock: U64, script: seq<Choice>, calls: nat)
    ensures ClockAfter(clock, script, calls + 1) == ClockAfter(ClockAfter(clock, script, calls), Drop(script, calls), 1)
    ensures Drop(script, calls + 1) == Rest(Drop(script, calls))
    decreases calls
  {
    if calls > 0 {
      OneCallMore(AdvanceNs(clock, Min(First(script).dt, U64_MAX)), Rest(script), calls - 1);
    }
  }

  /** w2 is reached from w1: the clock and the trace only grow, the script only
      shrinks, death and the cached timebase are for ever. */
  ghost predicate Later(w1: World, w2: World) {
    && w1.clock <= w2.clock
    && (w1.reading <= w1.clock ==> w1.reading <= w2.reading <= w2.clock)
    && w1.cpu <= w2.cpu
    && w1.log.trace <= w2.log.trace
    && |w2.script| <= |w1.script|
    && (w1.timebase ==> w2.timebase)
    && (w1.d().dead ==> w2.d().dead)
    && w1.d().emptyPipes <= w2.d().emptyPipes
    && w1.d().waitFailures <= w2.d().waitFailures
    && w1.d().faults <= w2.d().faults
    && w1.d().bytes.count <= w2.d().bytes.count
    && w1.d().memory.count <= w2.d().memory.count
    && w2.cores == w1.cores && w2.fileComes == w1.fileComes
  }

  lemma LaterStill(w0: World, w1: World, w2: World)
    requires Later(w0, w1) && Later(w1, w2)
    ensures Later(w0, w2) && Later(w2, w2) && w0.clock <= w1.clock <= w2.clock && (w1.timebase ==> w2.timebase)
    ensures w0.d().faults <= w1.d().faults
  {
  }

  lemma LaterSelf(w: World)
    ensures Later(w, w)
  {
  }

  lemma LaterMeans(w1: World, w2: World)
    requires Later(w1, w2)
    ensures w1.clock <= w2.clock && (w1.reading <= w1.clock ==> w2.reading <= w2.clock) && (w1.timebase ==> w2.timebase)
    ensures w1.d().emptyPipes <= w2.d().emptyPipes && w1.d().waitFailures <= w2.d().waitFailures
    ensures w1.d().faults <= w2.d().faults && (w1.d().dead ==> w2.d().dead) && |w2.script| <= |w1.script|
  {
  }

  /** So much processor time can be used in so much time. */
  ghost predicate Usable(cores: nat, cpu: int, time: int) { 0 <= cpu <= cores * time }

  /** Between the two states the child used no more than the processors allow. */
  ghost predicate Burned(w1: World, w2: World) { Usable(w1.cores, w2.cpu - w1.cpu, w2.clock - w1.clock) }

  lemma UsableLonger(cores: nat, cpu: int, time: int, longer: int)
    requires Usable(cores, cpu, time) && time <= longer
    ensures Usable(cores, cpu, longer)
  {
    assert cores * time <= cores * longer;
  }

  lemma UsableSum(cores: nat, cpu1: int, time1: int, cpu2: int, time2: int)
    requires Usable(cores, cpu1, time1) && Usable(cores, cpu2, time2)
    ensures Usable(cores, cpu1 + cpu2, time1 + time2)
  {
    assert cores * (time1 + time2) == cores * time1 + cores * time2;
  }

  /** The two digests agree except on death and what follows from it. */
  ghost predicate SameButDeath(d1: Digest, d2: Digest) {
    && d2 == d1.(dead := d2.dead, held := d2.held)
    && (d1.dead ==> d2.dead)
    && (d2.held <==> d1.held && !d2.dead)
  }

  method Emit(w: World, e: Event) returns (w': World)
    ensures w' == w.(log := w'.log) && w'.log.trace == w.log.trace + [e] && w'.d() == Step(w.d(), e)
  {
    w' := w.(log := Append(w.log, e));
  }

  method Die(w: World) returns (w': World)
    ensures w' == w.(log := w'.log) && w.log.trace <= w'.log.trace
    ensures SameButDeath(w.d(), w'.d()) && w'.d().dead && (w.d().dead ==> w' == w)
  {
    w' := w;
    if !w.d().dead { w' := Emit(w, Died); }
  }

  /** The child's processor time at a later moment. */
  function CpuAfter(w: World, clock: U64, dcpu: nat): (cpu: U64)
    requires w.clock <= clock
    ensures w.cpu <= cpu && (w.d().held || w.d().dead ==> cpu == w.cpu)
    ensures Usable(w.cores, cpu - w.cpu, clock - w.clock)
  {
    var most := w.cores * (clock - w.clock);
    if w.d().dead || w.d().held then w.cpu else AdvanceNs(w.cpu, Min(Min(dcpu, most), U64_MAX))
  }

  /** Time passes, the script moves on, and a child that is running burns
      processor time; a held or dead one burns none. */
  method Pass(w: World) returns (w': World)
    ensures Later(w, w') && SameButDeath(w.d(), w'.d())
    ensures w.d().held || w.d().dead ==> w'.cpu == w.cpu
    ensures w'.stdinWatched == w.stdinWatched && w'.reading == w.reading && w'.timebase == w.timebase
    ensures w.script == [] && w.clock < U64_MAX ==> w.clock < w'.clock
    ensures w.script != [] ==> |w'.script| < |w.script|
    ensures w'.clock == ClockAfter(w.clock, w.script, 1) && w'.script == Rest(w.script)
    ensures Burned(w, w')
    ensures w.d().dead ==> w'.log == w.log
  {
    hide Replay;
    var c := Now(w);
    var clock := AdvanceNs(w.clock, Min(c.dt, U64_MAX));
    w' := w.(clock := clock, cpu := CpuAfter(w, clock, c.dcpu), script := Rest(w.script));
    hide Usable, CpuAfter;
    if c.dies { w' := Die(w'); }
  }

  /** Time passes, and the child is certainly dead afterwards if `gone`. */
  method PassAway(w: World, gone: bool) returns (w': World)
    ensures Later(w, w') && SameButDeath(w.d(), w'.d())
    ensures w'.reading == w.reading && w'.stdinWatched == w.stdinWatched
    ensures gone ==> w'.d().dead
    ensures w'.clock == ClockAfter(w.clock, w.script, 1) && w'.script == Rest(w.script) && Burned(w, w')
  {
    hide Replay, Usable, ClockAfter;
    w' := Pass(w);
    if gone { w' := Die(w'); }
  }

  // ----- system calls

  // Each call may first let the child die; `mid` is the digest after that and
  // before the call's own entry in the trace.

  /** Reading the clock can fail only until the timebase is cached. */
  method ReadClock(w: World) returns (w': World, r: Option<U64>)
    ensures Later(w, w') && SameButDeath(w.d(), w'.d())
    ensures w.d().held || w.d().dead ==> w'.cpu == w.cpu
    ensures w'.stdinWatched == w.stdinWatched
    ensures r.Some? ==> w'.timebase && w'.clock == r.value == w'.reading
    ensures w.timebase ==> r.Some?
    ensures Burned(w, w')
    ensures w.script == [] && w.clock < U64_MAX ==> w.clock < w'.clock
    ensures w'.clock == ClockAfter(w.clock, w.script, 1) && w'.script == Rest(w.script)
  {
    hide Replay, Usable, ClockAfter;
    w' := Pass(w);
    if !w.timebase && Now(w).fails {
      r := None;
    } else {
      w' := w'.(timebase := true, reading := w'.clock);
      r := Some(w'.clock);
    }
  }

  /** kill and killpg. SIGCONT fails only for a process that is gone. */
  method SendKill(w: World, who: Sender, sig: int, to: Target)
      returns (w': World, errno: int, ghost mid: Digest)
    ensures w'.stdinWatched == w.stdinWatched
    ensures w'.reading == w.reading
    ensures Later(w, w') && SameButDeath(w.d(), mid)
    ensures w'.d() == Step(mid, Kill(who, sig, to, errno == 0, w'.clock))
    ensures |w.log.trace| < |w'.log.trace|
    ensures w'.log.trace[|w'.log.trace| - 1] == Kill(who, sig, to, errno == 0, w'.clock)
    ensures who == Throttle && sig == SIGCONT && errno != 0 ==> mid.dead
    ensures errno == KillAnswer(w.script) && Burned(w, w')
    ensures w'.clock == ClockAfter(w.clock, w.script, 1) && w'.script == Rest(w.script)
  {
    hide Replay, Usable, ClockAfter;
    errno := KillAnswer(w.script);
    w' := PassAway(w, who == Throttle && sig == SIGCONT && errno != 0);
    mid := w'.d();
    w' := Emit(w', Kill(who, sig, to, errno == 0, w'.clock));
  }

  /** The child may exit while the caller is inside wait4. */
  method EnterWait(w: World, blocking: bool) returns (w': World)
    ensures Later(w, w') && SameButDeath(Step(w.d(), WaitCall(blocking)), w'.d())
    ensures w'.script == Rest(w.script)
    ensures |w.log.trace| < |w'.log.trace| && w'.log.trace[|w.log.trace|] == WaitCall(blocking)
  {
    hide Replay, Usable, ClockAfter;
    w' := Emit(w, WaitCall(blocking));
    w' := Pass(w');
  }

  method LeaveWait(w: World, blocking: bool, outcome: WaitOutcome) returns (w': World, ghost mid: Digest)
    ensures Later(w, w') && SameButDeath(w.d(), mid) && w'.script == w.script
    ensures w'.d() == Step(mid, WaitReturn(blocking, outcome))
    ensures outcome.GotStatus? ==> mid.dead
    ensures w'.log.trace != [] && w'.log.trace[|w'.log.trace| - 1] == WaitReturn(blocking, outcome)
  {
    hide Replay, Usable, ClockAfter;
    w' := w;
    if outcome.GotStatus? { w' := Die(w'); }
    mid := w'.d();
    w' := Emit(w', WaitReturn(blocking, outcome));
  }

  /** wait4. A blocking call that succeeds does so because the child exited, and
      a reaped child cannot be reaped again. */
  method CallWait4(w: World, blocking: bool)
      returns (w': World, outcome: WaitOutcome, ghost mid: Digest)
    ensures Later(w, w') && SameButDeath(Step(w.d(), WaitCall(blocking)), mid)
    ensures w'.d() == Step(mid, WaitReturn(blocking, outcome))
    ensures outcome.GotStatus? ==> mid.dead && mid.reaped.None?
    ensures blocking ==> !outcome.StillRunning?
    ensures w.script == [] && w.d().reaped.None? && blocking ==> outcome.GotStatus?
    ensures w'.script == Rest(w.script)
    // the call and its return are the first and the last that the trace gains
    ensures |w.log.trace| < |w'.log.trace| && w'.log.trace[|w.log.trace|] == WaitCall(blocking)
    ensures w'.log.trace[|w'.log.trace| - 1] == WaitReturn(blocking, outcome)
  {
    hide Replay, Usable, ClockAfter;
    var c := Now(w);
    w' := EnterWait(w, blocking);
    outcome :=
      if w'.d().reaped.Some? then Failed(ECHILD)
      else if c.fails then Failed(c.errno)
      else if blocking || (w'.d().dead && !c.lags) then GotStatus(c.status)
      else StillRunning;
    w', mid := LeaveWait(w', blocking, outcome);
  }

  /** proc_pid_rusage for processor time: no answer only once the child is gone. */
  method ReadCpu(w: World) returns (w': World, r: Option<U64>)
    ensures w'.stdinWatched == w.stdinWatched
    ensures w'.reading == w.reading
    ensures Later(w, w')
    ensures w'.d() == w.d().(dead := w'.d().dead, held := w'.d().held, notes := w'.d().notes)
    ensures w'.d().held <==> w.d().held && !w'.d().dead
    ensures w'.d().notes == if r.Some? then WithSample(w.d().notes, w.reading, r.value, w'.d().held) else w.d().notes
    ensures w.d().held || w.d().dead ==> w'.cpu == w.cpu
    ensures r.None? ==> w'.d().dead
    ensures r.Some? ==> r.value == w'.cpu
    ensures w'.clock == ClockAfter(w.clock, w.script, 1) && w'.script == Rest(w.script) && Burned(w, w')
  {
    hide Replay, Usable, ClockAfter;
    w' := Pass(w);
    r := None;
    if !(w'.d().dead && Now(w).lags) {
      r := Some(w'.cpu);
      w' := Emit(w', CpuRead(w.reading, r.value));
    }
  }

  /** proc_pid_rusage for memory. */
  method ReadMemory(w: World) returns (w': World, r: Option<U64>, ghost mid: Digest)
    ensures w'.reading == w.reading
    ensures Later(w, w') && SameButDeath(w.d(), mid)
    ensures w'.d() == if r.Some? then Step(mid, MemSample(r.value)) else mid
    ensures r.None? ==> mid.dead
    ensures w'.stdinWatched == w.stdinWatched
  {
    hide Replay, Usable, ClockAfter;
    w' := Pass(w);
    mid := w'.d();
    r := None;
    if !(w'.d().dead && Now(w).lags) {
      r := Some(Min(Now(w).mem, U64_MAX));
      w' := Emit(w', MemSample(r.value));
    }
  }

  lemma OpenThenClosed(kqs: set<int>, kq: int)
    requires kq !in kqs
    ensures kqs + {kq} - {kq} == kqs
  {
  }

  method OpenKqueue(w: World) returns (w': World, kq: Option<int>, ghost mid: Digest)
    ensures w'.reading == w.reading
    ensures Later(w, w') && SameButDeath(w.d(), mid)
    ensures w'.d() == if kq.Some? then Step(mid, KqOpen(kq.value)) else Step(mid, Fault(0))
    ensures kq.Some? ==> kq.value !in w.d().kqs
    ensures !w'.stdinWatched
    ensures kq == if !Now(w).fails && Now(w).fd !in w.d().kqs then Some(Now(w).fd) else None
    ensures w'.clock == ClockAfter(w.clock, w.script, 1) && w'.script == Rest(w.script)
  {
    hide Replay, Usable, ClockAfter;
    var c := Now(w);
    w' := Pass(w);
    w' := w'.(stdinWatched := false);
    mid := w'.d();
    kq := None;
    if !c.fails && c.fd !in w.d().kqs {
      kq := Some(c.fd);
      w' := Emit(w', KqOpen(c.fd));
    } else {
      w' := Emit(w', Fault(0));
    }
  }

  method CloseKqueue(w: World, kq: int) returns (w': World, ghost mid: Digest)
    ensures Later(w, w') && SameButDeath(w.d(), mid)
    ensures w'.d() == Step(mid, KqClose(kq)) && w'.script == Rest(w.script)
    ensures w.d().dead ==> w'.log.trace == w.log.trace + [KqClose(kq)]
  {
    hide Replay, Usable, ClockAfter;
    w' := Pass(w);
    mid := w'.d();
    w' := Emit(w', KqClose(kq));
  }

  /** fstat on descriptor 0. */
  method StdinIsValid(w: World) returns (w': World, ok: bool)
    ensures w'.reading == w.reading
    ensures ok <==> !Now(w).fails
    ensures Later(w, w') && SameButDeath(w.d(), w'.d())
  {
    w' := Pass(w);
    ok := !Now(w).fails;
  }

  /** read on stdin: the byte count, with a record of what it means. */
  method ReadStdin(w: World) returns (w': World, n: int, ghost mid: Digest)
    ensures w'.reading == w.reading && n == Now(w).bytes
    ensures Later(w, w') && SameButDeath(w.d(), mid)
    ensures w'.d() == if n > 0 then Step(mid, Input(w.reading)) else if n == 0 then Step(mid, InputClosed) else mid
    ensures w'.stdinWatched == w.stdinWatched
  {
    hide Replay, Usable, ClockAfter;
    n := Now(w).bytes;
    w' := Pass(w);
    mid := w'.d();
    if n > 0 {
      w' := Emit(w', Input(w.reading));
    } else if n == 0 {
      w' := Emit(w', InputClosed);
    }
  }

  /** poll on stdin, which consumes nothing. */
  method PollStdin(w: World) returns (w': World, status: Poll, ghost mid: Digest)
    ensures w'.reading == w.reading
    ensures Later(w, w') && SameButDeath(w.d(), mid)
    ensures w'.d() == match status
                      case Readable => Step(mid, Input(w.reading))
                      case Eof => Step(mid, InputClosed)
                      case Idle => mid
    ensures w'.stdinWatched == w.stdinWatched
  {
    hide Replay, Usable, ClockAfter;
    status := Now(w).poll;
    w' := Pass(w);
    mid := w'.d();
    match status
    case Readable => w' := Emit(w', Input(w.reading));
    case Eof => w' := Emit(w', InputClosed);
    case Idle =>
  }

  /** read on the signal pipe: one byte, or nothing yet. */
  method ReadPipe(w: World) returns (w': World, r: Option<int>, ghost mid: Digest)
    ensures Later(w, w') && SameButDeath(w.d(), mid)
    ensures w'.d() == if r.Some? then Step(mid, PipeByte(r.value)) else Step(mid, PipeEmpty)
    ensures r == (if Now(w).fails then None else Some(Now(w).bytes)) && w'.script == Rest(w.script)
  {
    hide Replay, Usable, ClockAfter;
    w' := Pass(w);
    mid := w'.d();
    if Now(w).fails {
      r := None;
      w' := Emit(w', PipeEmpty);
    } else {
      r := Some(Now(w).bytes);
      w' := Emit(w', PipeByte(Now(w).bytes));
    }
  }

  /** Running the on-timeout hook: some time passes and the child may die. */
  method RunHook(w: World) returns (w': World, ghost mid: Digest)
    ensures Later(w, w') && SameButDeath(w.d(), mid)
    ensures w'.d() == Step(mid, HookRan)
  {
    hide Replay, Usable, ClockAfter;
    w' := Pass(w);
    mid := w'.d();
    w' := Emit(w', HookRan);
  }

  // ----- kevent

  datatype Flag = Add | Delete | NoOp

  /** One entry of the change list. The timer entry carries its delay. */
  datatype Change = Change(filter: Filter, ident: int, flag: Flag, data: nat)

  /** The stdin registration after a change list has been applied. */
  function ApplyStdin(changes: seq<Change>, watched: bool): bool
    decreases |changes|
  {
    if changes == [] then watched
    else
      var c := changes[0];
      ApplyStdin(changes[1..],
        if c.filter == Read && c.ident == 0 && c.flag == Add then true
        else if c.filter == Read && c.ident == 0 && c.flag == Delete then false
        else watched)
  }

  /** The list asks something of the read filter on `ident`. */
  predicate Mentions(changes: seq<Change>, ident: int) {
    exists i :: 0 <= i < |changes| && changes[i].filter == Read && changes[i].ident == ident && changes[i].flag != NoOp
  }

  /** The list watches a process. */
  predicate WatchesProcess(changes: seq<Change>) {
    exists i :: 0 <= i < |changes| && changes[i].filter == Proc && changes[i].flag == Add
  }

  /** What a queue reports, out of what the environment would have it report: a read
      event comes only from a filter that is registered (or, for an error, was asked
      for), a timer has no errors, and the exit of a process that was dead when the
      call was made comes before any timer. */
  function Reported(asked: Wake, changes: seq<Change>, watched: bool, dead: bool): Wake {
    match asked
    case WakeError(_) => asked
    case WakeEvent(filter, ident, eof, error, data) =>
      if filter == Timer then
        if dead && WatchesProcess(changes) then WakeEvent(Proc, ident, false, false, data)
        else WakeEvent(Timer, ident, false, false, data)
      else if IsStdinEvent(asked) && !watched then WakeError(EINTR)
      else if filter == Read && !IsStdinEvent(asked) && !Mentions(changes, ident) then WakeError(EINTR)
      else asked
  }

  /** The report says that the process is gone. */
  predicate SaysGone(e: Wake) {
    match e
    case WakeError(errno) => errno == ESRCH
    case WakeEvent(filter, _, _, error, data) => if error then data == ESRCH else filter == Proc
  }

  /** The kernel's side of the assumptions: an exit event or ESRCH means the
      child died, and a timer event is never early. */
  method Wakes(w: World, wake: Wake, delay: U64) returns (w': World)
    requires wake.WakeEvent? && wake.filter == Timer ==> !wake.error
    ensures Later(w, w') && SameButDeath(w.d(), w'.d())
    ensures w'.reading == w.reading && w'.stdinWatched == w.stdinWatched && w'.script == w.script
    ensures wake.WakeEvent? && wake.filter == Timer ==> Min(w.clock + delay, U64_MAX) <= w'.clock
    ensures SaysGone(wake) ==> w'.d().dead
  {
    hide Replay, Usable, ClockAfter;
    w' := w;
    if wake.WakeEvent? && wake.filter == Timer {
      w' := w.(clock := Min(w.clock + delay, U64_MAX));
    } else if SaysGone(wake) {
      w' := Die(w);
    }
  }

  lemma ReportsAreSound(asked: Wake, changes: seq<Change>, watched: bool, dead: bool)
    ensures var wake := Reported(asked, changes, watched, dead);
            && (wake.WakeEvent? && wake.filter == Timer ==> !wake.error && !(dead && WatchesProcess(changes)))
            && (IsStdinEvent(wake) ==> watched)
            && (wake.WakeEvent? && wake.filter == Read && !IsStdinEvent(wake) ==> Mentions(changes, wake.ident))
  {
  }

  /** kevent: apply the change list, arm the timer, then block until something
      happens. */
  method Kevent(w: World, changes: seq<Change>, delay: U64)
      returns (w': World, wake: Wake, ghost mid: Digest)
    requires w.clock + delay <= U64_MAX
    ensures w'.reading == w.reading
    ensures Later(w, w') && SameButDeath(Step(w.d(), Armed(w.clock + delay)), mid)
    ensures w'.d() == Step(mid, Woke(wake))
    ensures w'.stdinWatched == ApplyStdin(changes, w.stdinWatched)
    ensures wake.WakeEvent? && wake.filter == Timer ==> !wake.error && w.clock + delay <= w'.clock
    ensures SaysGone(wake) ==> mid.dead
    ensures wake == Reported(Now(w).wake, changes, w'.stdinWatched, w.d().dead) && w'.script == Rest(w.script)
    ensures IsStdinEvent(wake) ==> w'.stdinWatched
    ensures wake.WakeEvent? && wake.filter == Read && !IsStdinEvent(wake) ==> Mentions(changes, wake.ident)
    ensures w.d().dead && WatchesProcess(changes) ==> !(wake.WakeEvent? && wake.filter == Timer)
  {
    var watched := ApplyStdin(changes, w.stdinWatched);
    ReportsAreSound(Now(w).wake, changes, watched, w.d().dead);
    hide Replay, Usable, Reported, ClockAfter, Mentions, WatchesProcess, SaysGone;
    wake := Reported(Now(w).wake, changes, watched, w.d().dead);
    w' := Emit(w, Armed(w.clock + delay));
    w' := Pass(w'.(stdinWatched := watched));
    w' := Wakes(w', wake, delay);
    mid := w'.d();
    w' := Emit(w', Woke(wake));
  }
}
