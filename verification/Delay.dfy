/** Waiting before a command starts: the delay between attempts and the wait for a
    file. */
module Delay {
  import opened Wrappers
  import opened TimeMath
  import opened Kernel

  const ENOTDIR := 20
  const ENAMETOOLONG := 63
  const PATH_ROOM := 4096
  const MILLION := 1_000_000
  const INITIAL_POLL_MS := 10
  const MAX_POLL_MS := 1000

  /** Nothing happened but planned waits, and perhaps the child's death. */
  ghost predicate OnlyWaited(w: World, w': World) {
    && Later(w, w')
    && w'.d() == w.d().(dead := w'.d().dead, held := w'.d().held, farthest := w'.d().farthest, faults := w'.d().faults,
                             notes := w'.d().notes)
    && (w'.d().held <==> w.d().held && !w'.d().dead)
  }

  lemma WaitedStill(w0: World, w1: World, w2: World)
    requires OnlyWaited(w0, w1) && OnlyWaited(w1, w2)
    ensures OnlyWaited(w0, w2) && w0.d().faults <= w1.d().faults && w2.fileComes == w1.fileComes == w0.fileComes
  {
  }

  /** This module's conversion saturates but does not clamp to a timer's range. */
  function SpanNs(d: Duration): U64 { SaturatingAdd(SaturatingMul(d.secs, 1_000_000_000), d.subsecNanos) }

  // ----- the environment

  /** Neither clock of this module ever fails to answer. */
  method ReadNow(w: World) returns (w': World, now: U64)
    ensures OnlyWaited(w, w') && w'.clock == now
    ensures w'.d().farthest == w.d().farthest && w'.d().faults == w.d().faults && w'.d().notes == w.d().notes
    ensures w'.stdinWatched == w.stdinWatched
    ensures w'.clock == ClockAfter(w.clock, w.script, 1) && w'.script == Rest(w.script)
    ensures w.script == [] && w.clock < U64_MAX ==> w.clock < w'.clock
  {
    hide Replay;
    w' := Pass(w);
    w' := w'.(reading := w'.clock);
    now := w'.clock;
  }

  datatype Sleep = Slept | Cut(left: nat) | Refused(errno: int)

  method Plan(w: World, ns: nat) returns (w': World)
    ensures w' == w.(log := w'.log) && w.log.trace <= w'.log.trace
    ensures w'.d() == w.d().(farthest := Max(w.d().farthest, w.clock + ns), notes := WithNap(w.d().notes, w.clock, ns))
  {
    hide Replay;
    w' := Emit(w, Armed(w.clock + ns));
    w' := Emit(w', Napping(w.clock, ns));
  }

  /** nanosleep: it sleeps it out, is cut short and tells what is left, or refuses. */
  method Nanosleep(w: World, ns: nat) returns (w': World, nap: Sleep)
    ensures OnlyWaited(w, w') && w'.d().farthest == Max(w.d().farthest, w.clock + ns)
    ensures nap.Slept? ==> Min(w.clock + ns, U64_MAX) <= w'.clock
    ensures w'.d().faults == w.d().faults + One(nap.Refused?)
    ensures w'.d().notes == WithNap(w.d().notes, w.clock, ns)
    ensures nap.Cut? ==> nap.left == Max(0, w.clock + ns - w'.clock)
    ensures w.script == [] ==> w'.script == [] && nap.Slept?
    ensures w.script != [] ==> |w'.script| < |w.script|
  {
    hide Replay, Usable, ClockAfter;
    var c := Now(w);
    w' := Plan(w, ns);
    w' := Pass(w');
    if !c.fails {
      w' := w'.(clock := Max(w'.clock, Min(w.clock + ns, U64_MAX)));
      nap := Slept;
    } else if c.errno == EINTR {
      nap := Cut(Max(0, w.clock + ns - w'.clock));
    } else {
      nap := Refused(c.errno);
      w' := Emit(w', Fault(c.errno));
    }
  }

  /** stat. When the script is used up the file is there, or never will be. */
  method Stat(w: World) returns (w': World, errno: int)
    ensures OnlyWaited(w, w') && w'.d().farthest == w.d().farthest && w'.d().faults == w.d().faults
    ensures w'.d().notes == WithLook(w.d().notes, errno)
    ensures w.script == [] ==> errno == if w.fileComes then 0 else ENOENT
    ensures w'.clock == ClockAfter(w.clock, w.script, 1) && w'.script == Rest(w.script)
  {
    hide Replay, Usable, ClockAfter;
    w' := Pass(w);
    errno := if w.script == [] && !w.fileComes then ENOENT else if Now(w).fails then Now(w).errno else 0;
    w' := Emit(w', Looked(errno));
  }

  function Changes(signalFd: Option<int>, delay: U64): seq<Change> {
    [Change(Timer, 1, Add, delay)] + if signalFd.Some? then [Change(Read, signalFd.value, Add, 0)] else []
  }

  lemma OnlyThePipeIsRead(signalFd: Option<int>, delay: U64, watched: bool)
    ensures forall ident :: Mentions(Changes(signalFd, delay), ident) ==> signalFd == Some(ident)
    ensures ApplyStdin(Changes(signalFd, delay), watched) == (watched || signalFd == Some(0))
  {
    var c := Changes(signalFd, delay);
    assert c[0].filter == Timer;
    if signalFd.Some? {
      assert c[1].ident == signalFd.value && |c| == 2;
      assert c[1..] == [c[1]] && c[1..][1..] == [];
      assert ApplyStdin(c, watched) == ApplyStdin(c[1..], watched);
      assert ApplyStdin(c[1..], watched) == ApplyStdin(c[1..][1..], watched || signalFd.value == 0);
    } else {
      assert c[1..] == [];
    }
  }

  /** kevent on a queue that watches no process, so none is reported, not even as
      missing. A call that fails is a fault. */
  method Await(w: World, signalFd: Option<int>, delay: U64) returns (w': World, wake: Wake)
    requires w.clock + delay <= U64_MAX && (signalFd != Some(0) ==> !w.stdinWatched)
    ensures Later(w, w')
    ensures w'.d() == w.d().(dead := w'.d().dead, held := w'.d().held, farthest := Max(w.d().farthest, w.clock + delay),
                             ticks := w'.d().ticks, closed := w'.d().closed, faults := w'.d().faults,
                             notes := w'.d().notes)
    ensures w'.d().held <==> w.d().held && !w'.d().dead
    ensures wake.WakeEvent? ==> wake.filter != Proc
    ensures if wake.WakeEvent? && wake.filter == Read
            then signalFd.Some? && w'.d().notes == WithReady(w.d().notes, signalFd.value)
            else w'.d().notes == w.d().notes
    ensures wake.WakeError? && wake.errno != EINTR ==> w.d().faults < w'.d().faults
    ensures wake.WakeEvent? && wake.filter == Timer ==> w.clock + delay <= w'.clock
    ensures signalFd != Some(0) ==> !w'.stdinWatched
  {
    hide Replay;
    OnlyThePipeIsRead(signalFd, delay, w.stdinWatched);
    ghost var mid;
    w', wake, mid := Kevent(w, Changes(signalFd, delay), delay);
    if wake == WakeError(ESRCH) || (wake.WakeEvent? && wake.filter == Proc) {
      wake := WakeError(EINTR);
    }
  }

  // ----- sleeping

  /** However often it is interrupted, the sleep is planned to end when it was first
      planned to end, and it ends no earlier unless the kernel refuses it. */
  method SleepMs(ms: U64, w: World) returns (w': World)
    ensures w'.d().notes == WithNap(w.d().notes, w.clock, ms * MILLION)
    ensures w.script == [] ==> Min(w.clock + ms * MILLION, U64_MAX) <= w'.clock
    ensures OnlyWaited(w, w') && w'.d().farthest == Max(w.d().farthest, w.clock + ms * MILLION)
    ensures Min(w.clock + ms * MILLION, U64_MAX) <= w'.clock || w.d().faults < w'.d().faults
    ensures w.script == [] ==> w'.script == []
    ensures w.script != [] ==> |w'.script| < |w.script|
  {
    hide Replay;
    ghost var end := w.clock + ms * MILLION;
    var left, nap := ms * MILLION, Cut(0);
    w', nap := Nanosleep(w, left);
    while !nap.Slept?
      invariant OnlyWaited(w, w') && w'.d().farthest == Max(w.d().farthest, end)
      invariant nap.Slept? ==> Min(end, U64_MAX) <= w'.clock
      invariant nap.Cut? ==> nap.left == Max(0, end - w'.clock)
      invariant nap.Refused? ==> w.d().faults < w'.d().faults
      invariant w'.d().notes == WithNap(w.d().notes, w.clock, ms * MILLION)
      invariant w.script == [] ==> w'.script == [] && nap.Slept?
      invariant w.script != [] ==> |w'.script| < |w.script|
      decreases |w'.script|, !nap.Slept?
    {
      if nap.Refused? {
        return;
      }
      left := nap.left;
      if left == 0 {
        return;
      }
      w', nap := Nanosleep(w', left);
    }
  }

  // ----- the delay between attempts

  /** One read event has come since, from this descriptor. */
  ghost predicate Spoken(fd: int, w: World, w': World) { w'.d().notes.ready == Count(w.d().notes.ready, fd) }

  /** No read event has come since. */
  ghost predicate Unspoken(w: World, w': World) { w'.d().notes.ready == w.d().notes.ready }

  /** Block until the deadline, a signal or an error. An interrupted call is made
      again for what is then left, so no timer runs past the deadline. None means
      that the deadline was seen to have passed. */
  method Block(signalFd: Option<int>, deadline: U64, w: World) returns (w': World, wake: Option<Wake>)
    requires !w.stdinWatched
    ensures Later(w, w')
    ensures w'.d() == w.d().(dead := w'.d().dead, held := w'.d().held, farthest := w'.d().farthest, ticks := w'.d().ticks,
                             closed := w'.d().closed, faults := w'.d().faults, notes := w'.d().notes)
    ensures w'.d().farthest <= Max(w.d().farthest, deadline)
    ensures wake.None? ==> deadline <= w'.clock
    ensures wake.Some? && wake.value.WakeError? ==> w.d().faults < w'.d().faults
    ensures wake.Some? && wake.value.WakeEvent? && wake.value.filter == Timer ==>
              Min(deadline, w.clock + MAX_TIMER_NS) <= w'.clock
    ensures wake.Some? && wake.value.WakeEvent? ==> wake.value.filter != Proc
    ensures if wake.Some? && wake.value.WakeEvent? && wake.value.filter == Read
            then signalFd.Some? && w'.d().notes == WithReady(w.d().notes, signalFd.value)
            else w'.d().notes == w.d().notes
  {
    hide Replay;
    w', wake := w, None;
    while true
      invariant Later(w, w')
      invariant w'.d() == w.d().(dead := w'.d().dead, held := w'.d().held, farthest := w'.d().farthest, ticks := w'.d().ticks,
                                 closed := w'.d().closed, faults := w'.d().faults, notes := w'.d().notes)
      invariant w'.d().farthest <= Max(w.d().farthest, deadline)
      invariant (signalFd != Some(0) ==> !w'.stdinWatched) && w'.d().notes == w.d().notes
      decreases |w'.script|, if w'.clock < deadline then deadline - w'.clock else 0
    {
      var now;
      w', now := ReadNow(w');
      if DeadlineReached(now, deadline) {
        return w', None;
      }
      var e;
      w', e := Await(w', signalFd, Min(RemainingNs(now, deadline), MAX_TIMER_NS));
      if e != WakeError(EINTR) {
        return w', Some(e);
      }
    }
  }

  /** The delay. It is counted from `from`, the first reading of the clock unless the
      queue was refused, and nothing is planned to end later than it should, however
      often it is interrupted; the queue is closed again; false means the signal pipe
      spoke; and true that the time is up, unless the kernel refused the queue or a
      call on it and then the sleep as well. */
  method KqueueDelay(d: Duration, signalFd: Option<int>, w: World)
      returns (w': World, ended: bool, ghost from: U64)
    ensures Later(w, w') && w.clock <= from <= w'.clock
    ensures w'.d().kqs == w.d().kqs && w'.d().breaches == w.d().breaches && w'.d().attempts == w.d().attempts
    ensures w'.d().farthest <= Max(w.d().farthest, from + ExactNs(d))
    ensures d != ZERO && w'.d().faults == w.d().faults ==> from == ClockAfter(w.clock, w.script, 1)
    ensures d == ZERO ==> ended
    ensures if ended then Unspoken(w, w') else signalFd.Some? && Spoken(signalFd.value, w, w')
    ensures d == ZERO ==> w' == w
    ensures ended && d != ZERO ==> TimeIsUp(d, from, w'.clock) || w.d().faults + 2 <= w'.d().faults
  {
    hide Replay, TimeIsUp, ExactNs, ClockAfter;
    w', ended, from := w, true, w.clock;
    if d == ZERO {
      return;
    }
    var start, kq;
    w', start := ReadNow(w');
    from := start;
    ghost var mid;
    w', kq, mid := OpenKqueue(w');
    if kq.None? {
      from := w'.clock;
      w' := SleepAll(d, w');
    } else {
      OpenThenClosed(mid.kqs, kq.value);
      w', ended := DelayOnQueue(d, signalFd, start, kq.value, w');
    }
  }

  /** Without a queue: sleep the whole delay, in milliseconds. */
  method SleepAll(d: Duration, w: World) returns (w': World)
    ensures Unspoken(w, w')
    ensures OnlyWaited(w, w') && w'.d().farthest <= Max(w.d().farthest, w.clock + ExactNs(d))
    ensures TimeIsUp(d, w.clock, w'.clock) || w.d().faults < w'.d().faults
  {
    hide Replay;
    MillisecondsAreClose(d);
    SleepIsLongEnough(d, w.clock);
    hide DurationMs, SpanNs, ExactNs, TimeIsUp;
    w' := SleepMs(DurationMs(d), w);
  }

  /** With a queue: block, for what is left of the delay since `from`. */
  method DelayOnQueue(d: Duration, signalFd: Option<int>, from: U64, kq: int, w: World)
      returns (w': World, ended: bool)
    requires !w.stdinWatched && kq in w.d().kqs && from <= w.clock
    ensures Later(w, w')
    ensures w'.d().kqs == w.d().kqs - {kq} && w'.d().breaches == w.d().breaches && w'.d().attempts == w.d().attempts
    ensures w'.d().farthest <= Max(w.d().farthest, from + ExactNs(d))
    ensures if ended then Unspoken(w, w') else signalFd.Some? && Spoken(signalFd.value, w, w')
    ensures ended ==> TimeIsUp(d, from, w'.clock) || w.d().faults + 2 <= w'.d().faults
  {
    hide Replay;
    MillisecondsAreClose(d);
    BlockIsLongEnough(d, from, w.clock);
    hide SpanNs, ExactNs, TimeIsUp;
    w', ended := BlockAndClose(signalFd, AdvanceNs(from, SpanNs(d)), kq, w);
  }

  method BlockAndClose(signalFd: Option<int>, deadline: U64, kq: int, w: World)
      returns (w': World, ended: bool)
    requires !w.stdinWatched && kq in w.d().kqs
    ensures Later(w, w')
    ensures w'.d().kqs == w.d().kqs - {kq} && w'.d().breaches == w.d().breaches && w'.d().attempts == w.d().attempts
    ensures w'.d().farthest <= Max(w.d().farthest, deadline)
    ensures if ended then Unspoken(w, w') else signalFd.Some? && Spoken(signalFd.value, w, w')
    ensures ended ==> Min(deadline, w.clock + MAX_TIMER_NS) < w'.clock + MILLION || w.d().faults + 2 <= w'.d().faults
  {
    hide Replay;
    var wake;
    ghost var mid;
    ended := true;
    w', wake := Block(signalFd, deadline, w);
    w', mid := CloseKqueue(w', kq);
    match wake {
      case None =>
      case Some(WakeEvent(filter, _, _, _, _)) => ended := filter != Read;
      case Some(WakeError(_)) => w' := SleepOutRest(deadline, w');
    }
  }

  /** The delay is over to the millisecond, or the longest timer is. */
  ghost predicate TimeIsUp(d: Duration, from: U64, clock: U64) {
    Min(AdvanceNs(from, SpanNs(d)), from + MAX_TIMER_NS) < clock + MILLION
  }

  lemma SleepIsLongEnough(d: Duration, from: U64)
    ensures forall clock: U64 :: Min(from + DurationMs(d) * MILLION, U64_MAX) <= clock ==> TimeIsUp(d, from, clock)
  {
    MillisecondsAreClose(d);
    hide DurationMs, SpanNs;
  }

  lemma BlockIsLongEnough(d: Duration, from: U64, blocked: U64)
    requires from <= blocked
    ensures forall clock: U64 ::
              Min(AdvanceNs(from, SpanNs(d)), blocked + MAX_TIMER_NS) < clock + MILLION ==> TimeIsUp(d, from, clock)
  {
  }

  lemma MillisecondsAreClose(d: Duration)
    ensures DurationMs(d) * MILLION <= ExactNs(d) && SpanNs(d) <= ExactNs(d)
    ensures SpanNs(d) < DurationMs(d) * MILLION + MILLION
  {
  }

  /** What is left in whole milliseconds, slept. */
  method SleepOutRest(deadline: U64, w: World) returns (w': World)
    ensures Unspoken(w, w')
    ensures OnlyWaited(w, w') && w'.d().farthest <= Max(w.d().farthest, deadline)
    ensures deadline < w'.clock + MILLION || w.d().faults < w'.d().faults
  {
    hide Replay;
    var now;
    w', now := ReadNow(w);
    var ms := RemainingNs(now, deadline) / MILLION;
    if ms > 0 {
      w' := SleepMs(ms, w');
    }
  }

  // ----- the wait for a file

  datatype Check = There | Missing | Unreadable(errno: int)

  /** What stat's answer means. */
  function Meaning(errno: int): Check {
    if errno == 0 then There else if errno == ENOENT || errno == ENOTDIR then Missing else Unreadable(errno)
  }

  /** stat on a path of this many bytes: whether it is there, or an error other than
      its absence. A path that does not fit the buffer is refused unasked. */
  method FileExists(pathBytes: nat, w: World) returns (w': World, r: Check)
    ensures OnlyWaited(w, w') && w'.d().farthest == w.d().farthest && w'.d().faults == w.d().faults
    ensures pathBytes >= PATH_ROOM ==> w' == w && r == Unreadable(ENAMETOOLONG)
    ensures pathBytes < PATH_ROOM ==>
              && w'.d().notes.looks.Look? && w'.d().notes == WithLook(w.d().notes, w'.d().notes.looks.errno)
              && (r.There? <==> w'.d().notes.looks.errno == 0)
              && (r.Missing? <==> w'.d().notes.looks.errno in {ENOENT, ENOTDIR})
              && (r.Unreadable? ==> r.errno == w'.d().notes.looks.errno)
              && w'.clock == ClockAfter(w.clock, w.script, 1) && w'.script == Rest(w.script)
              && (w.script == [] ==> (r.There? <==> w.fileComes) && !r.Unreadable?)
  {
    if pathBytes >= PATH_ROOM {
      return w, Unreadable(ENAMETOOLONG);
    }
    var errno;
    w', errno := Stat(w);
    r := Meaning(errno);
  }

  datatype FileError = FileTimeout | FileFailed(errno: int)

  function Interval(k: nat): nat {
    if k == 0 then INITIAL_POLL_MS else Min(Interval(k - 1) * 2, MAX_POLL_MS)
  }

  function Pow2(k: nat): nat { if k == 0 then 1 else 2 * Pow2(k - 1) }

  /** The k-th interval is 10 * 2^k milliseconds, capped at a second. */
  lemma {:induction false} IntervalDoublesThenStays(k: nat)
    ensures Interval(k) == Min(10 * Pow2(k), 1000)
  {
    if k > 0 {
      IntervalDoublesThenStays(k - 1);
    }
  }

  /** The k-th sleep is its interval, unless the deadline is nearer, and never ends a
      millisecond or more past the deadline. */
  ghost predicate Planned(nap: Nap, k: nat, deadline: Option<U64>) {
    && MILLION <= nap.ns <= Interval(k) * MILLION && nap.ns % MILLION == 0
    && match deadline
       case None => nap.ns == Interval(k) * MILLION
       case Some(end) =>
         && nap.at < end && nap.at + nap.ns < end + MILLION
         && (nap.at + Interval(k) * MILLION <= end ==> nap.ns == Interval(k) * MILLION)
  }

  /** One turn of the wait: sleep, then look. None means that the deadline was seen to
      have passed, and nothing was done. */
  method SleepAndLook(pathBytes: nat, ghost k: nat, interval: nat, deadline: Option<U64>, w: World)
      returns (w': World, check: Option<Check>)
    requires pathBytes < PATH_ROOM && 1 <= interval == Interval(k) <= MAX_POLL_MS && w.d().notes.nap.None?
    ensures OnlyWaited(w, w')
    ensures check.None? ==> deadline.Some? && deadline.value <= w'.clock
                            && w'.d().farthest == w.d().farthest && w'.d().notes == w.d().notes
    ensures check.Some? ==> Turned(w, w', check.value, k, deadline)
    ensures check.Some? && deadline.Some? ==> w'.d().farthest <= Max(w.d().farthest, deadline.value + MILLION - 1)
    ensures check.Some? && deadline.Some? ==> w.clock < deadline.value
                                              && Advanced(w, w', if w.d().faults < w'.d().faults then 0 else MILLION)
    ensures w.script != [] ==> |w'.script| < |w.script|
    ensures w.script == [] && check == Some(Missing) ==>
              w'.script == [] && !w.fileComes && (deadline.Some? ==> w.clock < w'.clock)
  {
    hide Replay, Interval, ClockAfter;
    var sleep := interval;
    w' := w;
    if deadline.Some? {
      var now;
      w', now := ReadNow(w');
      if DeadlineReached(now, deadline.value) {
        return w', None;
      }
      sleep := Min(interval, Max(RemainingNs(now, deadline.value) / MILLION, 1));
    }
    ghost var at := w'.clock;
    w' := SleepMs(sleep, w');
    ghost var slept := w';
    var c;
    w', c := FileExists(pathBytes, w');
    check := Some(c);
    SleepIsPlanned(sleep, interval, k, at, deadline);
    hide Planned;
    assert slept.d().notes == w.d().notes.(nap := Some(Nap(at, sleep * MILLION)));
  }

  lemma SleepIsPlanned(sleep: nat, interval: nat, k: nat, at: U64, deadline: Option<U64>)
    requires 1 <= interval == Interval(k)
    requires match deadline
             case None => sleep == interval
             case Some(end) => at < end && sleep == Min(interval, Max(RemainingNs(at, end) / MILLION, 1))
    ensures Planned(Nap(at, sleep * MILLION), k, deadline)
    ensures deadline.Some? ==> at + sleep * MILLION < deadline.value + MILLION
  {
    hide Interval;
  }

  /** The clock has gained this much, or has run out. */
  ghost predicate Advanced(w: World, w': World, ns: nat) { Min(w.clock + ns, U64_MAX) <= w'.clock }

  /** The trace has gained one look, after a planned sleep, and this is what it said. */
  ghost predicate Turned(w: World, w': World, check: Check, k: nat, deadline: Option<U64>) {
    var looks := w'.d().notes.looks;
    && looks.Look? && looks.before == w.d().notes.looks && w'.d().notes.nap.None?
    && looks.nap.Some? && Planned(looks.nap.value, k, deadline)
    && check == Meaning(looks.errno)
  }

  /** One look of a trace. */
  datatype Peek = Peek(nap: Option<Nap>, errno: int)

  function Height(s: Looks): nat {
    match s
    case NoLook => 0
    case Look(before, _, _) => Height(before) + 1
  }

  /** The looks a trace shows since `from`, in order. */
  function Since(from: Looks, s: Looks): seq<Peek>
    decreases s
  {
    if s == from || s == NoLook then [] else Since(from, s.before) + [Peek(s.nap, s.errno)]
  }

  /** All looks but the first come after their planned sleep, and none but the last
      found anything or met an error. */
  ghost predicate Regular(looks: seq<Peek>, deadline: Option<U64>) {
    && (forall k :: 1 <= k < |looks| ==> looks[k].nap.Some? && Planned(looks[k].nap.value, k - 1, deadline))
    && (forall k :: 0 <= k < |looks| - 1 ==> Meaning(looks[k].errno) == Missing)
  }

  lemma RegularGrows(looks: seq<Peek>, deadline: Option<U64>, look: Peek)
    requires looks != [] && Regular(looks, deadline) && Meaning(looks[|looks| - 1].errno) == Missing
    requires look.nap.Some? && Planned(look.nap.value, |looks| - 1, deadline)
    ensures Regular(looks + [look], deadline)
  {
  }

  /** When the wait gives up: counted from the clock's reading after the first look. */
  function FileDeadline(timeout: Option<Duration>, w: World): Option<U64> {
    if timeout.None? then None else Some(AdvanceNs(ClockAfter(w.clock, w.script, 2), SpanNs(timeout.value)))
  }

  /** What the answer owes to the last look. */
  ghost predicate Follows(r: Result<(), FileError>, last: int, deadline: Option<U64>, clock: U64) {
    match r
    case Ok(_) => Meaning(last) == There
    case Err(FileFailed(errno)) => Meaning(last) == Unreadable(errno)
    case Err(FileTimeout) => Meaning(last) == Missing && deadline.Some? && deadline.value <= clock
  }

  /** How many looks a wait with this limit makes at most, if no sleep is refused. */
  function MostLooks(timeout: Duration): nat { SpanNs(timeout) / MILLION + 2 }

  function Found(check: Check): Result<(), FileError>
    requires !check.Missing?
  {
    if check.There? then Ok(()) else Err(FileFailed(check.errno))
  }

  /** So far every look has found nothing, and there have been k since the first. */
  ghost predicate Waiting(from: Looks, k: nat, deadline: Option<U64>, w: World) {
    var looks := Since(from, w.d().notes.looks);
    && |looks| == k + 1 && Height(from) < Height(w.d().notes.looks) && w.d().notes.nap.None?
    && Regular(looks, deadline) && Meaning(looks[k].errno) == Missing
  }

  lemma WaitingTurns(from: Looks, k: nat, deadline: Option<U64>, w: World, w': World, check: Check)
    requires Waiting(from, k, deadline, w) && Turned(w, w', check, k, deadline)
    ensures var looks := Since(from, w'.d().notes.looks);
            |looks| == k + 2 && Regular(looks, deadline) && Meaning(looks[k + 1].errno) == check
    ensures check.Missing? ==> Waiting(from, k + 1, deadline, w')
  {
    var looks, last := w.d().notes.looks, w'.d().notes.looks;
    assert Since(from, last) == Since(from, looks) + [Peek(last.nap, last.errno)];
    RegularGrows(Since(from, looks), deadline, Peek(last.nap, last.errno));
  }

  lemma FewTurns(start: U64, turns: nat, refused: nat, clock: U64, deadline: U64)
    requires refused <= turns && Min(start + (turns - refused) * MILLION, U64_MAX) <= clock < deadline
    ensures turns <= refused + (deadline - start) / MILLION
  {
  }

  /** The loop: after a first look that found nothing. */
  method Keep(pathBytes: nat, limit: Option<U64>, ghost from: Looks, w: World) returns (w': World, r: Result<(), FileError>)
    requires pathBytes < PATH_ROOM && Waiting(from, 0, limit, w)
    requires if limit.Some? then w.clock <= limit.value else w.fileComes
    ensures OnlyWaited(w, w')
    ensures var looks := Since(from, w'.d().notes.looks);
            && looks != [] && Regular(looks, limit) && Follows(r, looks[|looks| - 1].errno, limit, w'.clock)
            && (limit.Some? ==> |looks| <= (limit.value - w.clock) / MILLION + 2 + (w'.d().faults - w.d().faults))
    ensures limit.Some? ==> w'.d().farthest <= Max(w.d().farthest, limit.value + MILLION - 1)
  {
    hide Replay, Planned, Interval, Since, Regular, Turned, ClockAfter;
    w' := w;
    var interval := INITIAL_POLL_MS;
    ghost var k, refused := 0, 0;
    IntervalIsPositive(0);
    while true
      invariant OnlyWaited(w, w') && Waiting(from, k, limit, w')
      invariant 1 <= interval == Interval(k) <= MAX_POLL_MS
      invariant limit.Some? ==> w'.d().farthest <= Max(w.d().farthest, limit.value + MILLION - 1)
      invariant limit.Some? ==> Min(w.clock + (k - refused) * MILLION, U64_MAX) <= w'.clock
      invariant limit.Some? ==> k <= (limit.value - w.clock) / MILLION + 1 + refused
      invariant refused <= k && refused <= w'.d().faults - w.d().faults
      decreases |w'.script|, if limit.Some? && w'.clock < limit.value then limit.value - w'.clock else 0
    {
      ghost var before := w';
      var check;
      w', check := SleepAndLook(pathBytes, k, interval, limit, w');
      if check.None? {
        return w', Err(FileTimeout);
      }
      WaitingTurns(from, k, limit, before, w', check.value);
      if limit.Some? {
        FewTurns(w.clock, k, refused, before.clock, limit.value);
        if before.d().faults < w'.d().faults { refused := refused + 1; }
      }
      k := k + 1;
      if !check.value.Missing? {
        return w', Found(check.value);
      }
      IntervalIsPositive(k);
      interval := Min(interval * 2, MAX_POLL_MS);
    }
  }

  lemma {:induction false} IntervalIsPositive(k: nat)
    ensures 1 <= Interval(k) <= MAX_POLL_MS && Interval(0) == INITIAL_POLL_MS
    ensures k > 0 ==> Interval(k) == Min(Interval(k - 1) * 2, MAX_POLL_MS)
  {
    if k > 0 {
      IntervalIsPositive(k - 1);
    }
  }

  lemma FirstLook(from: Looks, nap: Option<Nap>, errno: int)
    ensures Since(from, Look(from, nap, errno)) == [Peek(nap, errno)]
    ensures Height(from) < Height(Look(from, nap, errno))
  {
    assert Height(Look(from, nap, errno)) != Height(from);
  }

  /** Wait for the file. What is said of the looks is said of those in the trace: the
      answer follows from the last of them. With a limit the wait ends even if the file
      never comes; without one it lasts until the file is there. */
  method WaitForFile(pathBytes: nat, timeout: Option<Duration>, w: World) returns (w': World, r: Result<(), FileError>)
    requires timeout.None? ==> w.fileComes
    ensures OnlyWaited(w, w')
    ensures pathBytes >= PATH_ROOM ==> w' == w && r == Err(FileFailed(ENAMETOOLONG))
    ensures pathBytes < PATH_ROOM ==>
              var looks := Since(w.d().notes.looks, w'.d().notes.looks);
              && looks != [] && Regular(looks, FileDeadline(timeout, w))
              && Follows(r, looks[|looks| - 1].errno, FileDeadline(timeout, w), w'.clock)
              && (timeout.Some? ==> |looks| <= MostLooks(timeout.value) + (w'.d().faults - w.d().faults))
    ensures timeout.Some? ==> w'.d().farthest <= Max(w.d().farthest, FileDeadline(timeout, w).value + MILLION - 1)
  {
    OneCallMore(w.clock, w.script, 1);
    hide Replay, Planned, Interval, SpanNs, ClockAfter, Drop, Since, Height, Regular, Follows, OnlyWaited;
    var check;
    w', check := FileExists(pathBytes, w);
    if pathBytes < PATH_ROOM {
      FirstLook(w.d().notes.looks, w.d().notes.nap, w'.d().notes.looks.errno);
    }
    ghost var looked := w';
    if !check.Missing? {
      return w', Found(check);
    }
    var limit := None;
    if timeout.Some? {
      var now;
      w', now := ReadNow(w');
      WaitedStill(w, looked, w');
      limit := Some(AdvanceNs(now, SpanNs(timeout.value)));
    }
    ghost var begun := w';
    w', r := Keep(pathBytes, limit, w.d().notes.looks, w');
    WaitedStill(w, begun, w');
  }
}
