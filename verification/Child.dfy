/** The child handle: reaping state and exit-status decoding. */
module Child {
  import opened Wrappers
  import opened TimeMath
  import opened Kernel
  import opened Discipline

  datatype Error = WaitError(errno: int)

  /** The exit code in a wait status, if the child exited by itself. */
  function Code(status: int): Option<int> {
    if status % 128 == 0 then Some(status / 256 % 256) else None
  }

  /** The signal in a wait status, if one ended the child. */
  function SignalOf(status: int): Option<int> {
    if (status % 128 + 1) / 2 > 0 then Some(status % 128) else None
  }

  /** The 8-bit exit code reported for a status. */
  function StatusToExitCode(status: int): int {
    match SignalOf(status)
    case Some(sig) => (128 + sig) % 256
    case None => (match Code(status) case Some(code) => code % 256 case None => 1)
  }

  /** A status decodes to a code or to a signal and never to both, so the reported
      code tells the two apart except for codes from 129 up. */
  lemma StatusDecodesOneWay(status: int)
    ensures Code(status).Some? <==> SignalOf(status).None?
    ensures Code(status).Some? ==> StatusToExitCode(status) == Code(status).value < 256
    ensures SignalOf(status).Some? ==> StatusToExitCode(status) == 128 + SignalOf(status).value <= 255
  {
  }

  class RawChild {
    var exited: bool

    constructor ()
      ensures !exited
    {
      exited := false;
    }

    /** The handle remembers exactly whether the child has been reaped, and a
        reaped child is dead. */
    ghost predicate Tracks(w: World)
      reads this
    {
      && (exited <==> w.d().reaped.Some?)
      && (exited ==> w.d().dead)
    }

    /** Block until the child exits. Interrupted calls are retried; a handle that
        has reaped makes no system call at all. */
    method Wait(w: World) returns (w': World, r: Result<int, Error>)
      requires Tracks(w)
      modifies this
      ensures Tracks(w') && Later(w, w')
      ensures old(exited) ==> w' == w && r == Err(WaitError(ECHILD))
      ensures r.Ok? ==> !old(exited) && exited && w'.d().reaped == Some(r.value)
      ensures r.Err? ==> exited == old(exited) && r.error.errno != EINTR
      ensures w'.d() == w.d().(dead := w'.d().dead, held := w'.d().held, reaped := w'.d().reaped,
                               waitFailures := w'.d().waitFailures, vain := w'.d().vain,
                               notes := w'.d().notes, breaches := w'.d().breaches)
      ensures OnlyWaits(w.d().notes, w'.d().notes)
      ensures !old(exited) ==> w.d().notes.calls.waits < w'.d().notes.calls.waits
      ensures w'.d().held ==> w.d().held
      ensures !w.d().held ==> w'.d().breaches == w.d().breaches
      ensures w.d().dead || w.d().attempts.After? ==> w'.d().vain == w.d().vain
      ensures r.Ok? || old(exited) ==> w'.d().waitFailures == w.d().waitFailures
      ensures r.Err? && !old(exited) ==> w'.d().waitFailures == w.d().waitFailures + 1
      ensures w.script == [] && !old(exited) ==> r.Ok?
      ensures r.Err? && !old(exited) ==>
                w'.log.trace != [] && w'.log.trace[|w'.log.trace| - 1] == WaitReturn(true, Failed(r.error.errno))
    {
      hide Replay;
      if exited {
        return w, Err(WaitError(ECHILD));
      }
      w' := w;
      while true
        invariant !exited && Tracks(w') && Later(w, w')
        invariant w'.d() == w.d().(dead := w'.d().dead, held := w'.d().held, vain := w'.d().vain,
                                   notes := w'.d().notes, breaches := w'.d().breaches)
        invariant OnlyWaits(w.d().notes, w'.d().notes)
        invariant w.script == [] ==> w'.script == []
        invariant w'.d().held ==> w.d().held
        invariant w.d().dead || w.d().attempts.After? ==> w'.d().vain == w.d().vain
        invariant !w.d().held ==> w'.d().breaches == w.d().breaches
        decreases |w'.script|
      {
        var outcome;
        ghost var mid;
        w', outcome, mid := CallWait4(w', true);
        match outcome
        case Failed(errno) =>
          if errno == EINTR { continue; }
          return w', Err(WaitError(errno));
        case GotStatus(status) =>
          exited := true;
          return w', Ok(status);
      }
    }

    /** Ask without blocking. None means the child is still running. */
    method TryWait(w: World) returns (w': World, r: Result<Option<int>, Error>)
      requires Tracks(w)
      modifies this
      ensures Tracks(w') && Later(w, w')
      ensures old(exited) ==> w' == w && r == Err(WaitError(ECHILD))
      ensures r.Ok? && r.value.Some? <==> !old(exited) && exited
      ensures r.Ok? && r.value.Some? ==> w'.d().reaped == r.value
      ensures r.Err? && !old(exited) ==> w'.d().waitFailures == w.d().waitFailures + 1
      ensures r.Ok? ==> w'.d().waitFailures == w.d().waitFailures
      ensures w'.d() == w.d().(dead := w'.d().dead, held := w'.d().held, reaped := w'.d().reaped,
                               waitFailures := w'.d().waitFailures, notes := w'.d().notes)
      ensures w'.d().held ==> w.d().held
      // one call, the first thing the trace gains, and it does not block
      ensures !old(exited) ==>
                && |w.log.trace| < |w'.log.trace| && w'.log.trace[|w.log.trace|] == WaitCall(false)
                && w'.d().notes == w.d().notes.(calls := Called(w.d().notes.calls, false))
    {
      hide Replay;
      if exited {
        return w, Err(WaitError(ECHILD));
      }
      var outcome;
      ghost var mid;
      w', outcome, mid := CallWait4(w, false);
      match outcome
      case Failed(errno) => r := Err(WaitError(errno));
      case StillRunning => r := Ok(None);
      case GotStatus(status) =>
        exited := true;
        r := Ok(Some(status));
    }

    /** SIGKILL the child; a handle that has reaped touches nothing. */
    method Kill(w: World) returns (w': World, r: Result<(), Error>)
      requires Tracks(w)
      ensures Tracks(w') && Later(w, w')
      ensures exited ==> w' == w && r == Ok(())
      ensures !exited ==> exists at :: w'.d().attempts == After(w.d().attempts, SIGKILL, Process, at)
      ensures !exited ==> r == if KillAnswer(w.script) in {0, ESRCH} then Ok(()) else Err(WaitError(KillAnswer(w.script)))
      ensures w'.d().notes == w.d().notes
      ensures w'.d().reaped == w.d().reaped && w'.d().kqs == w.d().kqs
      ensures w'.d().held ==> w.d().held
      ensures !w.d().held ==> w'.d().breaches == w.d().breaches
    {
      hide Replay;
      if exited {
        return w, Ok(());
      }
      var errno;
      ghost var mid;
      w', errno, mid := SendKill(w, Supervisor, SIGKILL, Process);
      r := if errno == 0 || errno == ESRCH then Ok(()) else Err(WaitError(errno));
    }
  }

  datatype Op = DoWait | DoTryWait | DoKill

  function Times(ops: seq<Op>, op: Op): nat {
    if ops == [] then 0 else Times(ops[..|ops| - 1], op) + One(ops[|ops| - 1] == op)
  }

  lemma OneMore(ops: seq<Op>, n: nat)
    requires n < |ops|
    ensures forall op :: Times(ops[..n + 1], op) == Times(ops[..n], op) + One(ops[n] == op)
  {
    assert ops[..n + 1][..n] == ops[..n];
  }

  /** What a sequence of operations adds to the trace: a SIGKILL for each kill, one
      question for each non-blocking wait, and for each blocking one at least one
      call (more if it is interrupted). */
  ghost predicate Made(ops: seq<Op>, d: Digest, d': Digest) {
    && Length(d'.attempts) == Length(d.attempts) + Times(ops, DoKill)
    && d'.notes.calls.asks == d.notes.calls.asks + Times(ops, DoTryWait)
    && d'.notes.calls.waits >= d.notes.calls.waits + Times(ops, DoWait)
    && (Times(ops, DoWait) == 0 ==> d'.notes.calls.waits == d.notes.calls.waits)
  }

  lemma MadeOneMore(ops: seq<Op>, n: nat, d0: Digest, d: Digest, d': Digest)
    requires n < |ops| && Made(ops[..n], d0, d) && MadeOne(ops[n], d, d')
    ensures Made(ops[..n + 1], d0, d')
  {
    OneMore(ops, n);
  }

  /** What one operation on a child not yet reaped adds. */
  ghost predicate MadeOne(op: Op, d: Digest, d': Digest) {
    && Length(d'.attempts) == Length(d.attempts) + One(op == DoKill)
    && d'.notes.calls.asks == d.notes.calls.asks + One(op == DoTryWait)
    && (if op == DoWait then d'.notes.calls.waits > d.notes.calls.waits else d'.notes.calls.waits == d.notes.calls.waits)
  }

  lemma RulesAreCounted(w: World)
    ensures w.d().breaches == 0 <==> Disciplined(w.log.trace)
  {
    DigestCountsBreaches(w.log.trace);
  }

  method Act(child: RawChild, op: Op, w: World) returns (w': World)
    requires child.Tracks(w) && !w.d().held
    modifies child
    ensures child.Tracks(w') && !w'.d().held && w'.d().breaches == w.d().breaches
    ensures old(child.exited) ==> w' == w && child.exited
    ensures !old(child.exited) ==> MadeOne(op, w.d(), w'.d()) && (child.exited ==> op != DoKill)
  {
    hide Replay;
    match op
    case DoWait =>
      var r;
      w', r := child.Wait(w);
    case DoTryWait =>
      var r;
      w', r := child.TryWait(w);
    case DoKill =>
      var r;
      w', r := child.Kill(w);
  }

  /** Any sequence of handle operations, in any environment. The first `used` of
      them reach the child, up to and including the one that reaps it, if any; those
      after it make no system call at all. */
  method Drive(child: RawChild, ops: seq<Op>, w: World) returns (w': World, used: nat)
    requires child.Tracks(w) && !w.d().held && Disciplined(w.log.trace)
    modifies child
    ensures child.Tracks(w') && Disciplined(w'.log.trace)
    ensures used <= |ops| && Made(ops[..used], w.d(), w'.d())
    ensures if old(child.exited) then used == 0 && w' == w
            else if child.exited then used > 0 && ops[used - 1] != DoKill
            else used == |ops|
  {
    RulesAreCounted(w);
    assert Made(ops[..0], w.d(), w.d());
    hide *;
    w', used := w, 0;
    for i := 0 to |ops|
      invariant child.Tracks(w') && !w'.d().held && w'.d().breaches == 0
      invariant used <= i && Made(ops[..used], w.d(), w'.d())
      invariant old(child.exited) ==> child.exited && used == 0 && w' == w
      invariant !old(child.exited) ==> if child.exited then used > 0 && ops[used - 1] != DoKill else used == i
    {
      ghost var before := w'.d();
      var effective := !child.exited;
      w' := Act(child, ops[i], w');
      if effective {
        MadeOneMore(ops, i, w.d(), before, w'.d());
        used := i + 1;
      }
    }
    RulesAreCounted(w');
  }
}
