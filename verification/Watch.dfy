/** The five watchdogs that share one timer: their next due times, the nearest
    of them, and how they move. */
module Watch {
  import opened Wrappers
  import opened TimeMath
  import opened Kernel

  datatype StdinMode = Consume | Passthrough

  datatype StdinWatch = StdinWatch(limit: U64, lastActivity: U64, mode: StdinMode)

  datatype MemoryLimit = MemoryLimit(limit: U64, interval: U64)

  /** The variables of the wait loop. A heartbeat interval of zero and a throttle
      or memory interval of U64_MAX mean the watchdog is off, with its next due
      time at U64_MAX. */
  datatype Watches = Watches(
    deadline: U64,
    heartbeat: U64,
    nextHeartbeat: U64,
    throttle: U64,
    nextThrottle: U64,
    memory: Option<MemoryLimit>,
    nextMemory: U64,
    idleLimit: U64,
    stdin: Option<StdinWatch>,
    stdinEnabled: bool,
    stdinFlag: Flag,
    signalFd: Option<int>)

  function TimeToStdin(l: Watches, now: U64): U64 {
    if l.stdin.None? then U64_MAX
    else
      match TimeToIdleTimeout(l.stdin.value.lastActivity, now, l.idleLimit)
      case Some(left) => left
      case None => 0
  }

  /** How long to arm the timer for. */
  function NextWake(l: Watches, now: U64): U64 {
    Min(Min(Min(Min(RemainingNs(now, l.deadline),
                    RemainingNs(now, l.nextHeartbeat)),
                TimeToStdin(l, now)),
            RemainingNs(now, l.nextThrottle)),
        RemainingNs(now, l.nextMemory))
  }

  /** The moments at which some watchdog is due. */
  function Pending(l: Watches): set<nat> {
    {l.deadline, l.nextHeartbeat, l.nextThrottle, l.nextMemory}
    + if l.stdin.Some? then {l.stdin.value.lastActivity + l.idleLimit} else {}
  }

  /** The timer goes off at the first pending moment: never past any of them, and
      exactly on one, counting an overdue one as due now. */
  lemma NextWakeIsTheNearest(l: Watches, now: U64)
    requires l.stdin.Some? ==> l.stdin.value.lastActivity <= now
    ensures forall due :: due in Pending(l) ==> now + NextWake(l, now) <= Max(due, now)
    ensures exists due :: due in Pending(l) && now + NextWake(l, now) == Max(due, now)
  {
    var wake := NextWake(l, now);
    if wake == RemainingNs(now, l.deadline) {
      assert l.deadline in Pending(l);
    } else if wake == RemainingNs(now, l.nextHeartbeat) {
      assert l.nextHeartbeat in Pending(l);
    } else if wake == RemainingNs(now, l.nextThrottle) {
      assert l.nextThrottle in Pending(l);
    } else if wake == RemainingNs(now, l.nextMemory) {
      assert l.nextMemory in Pending(l);
    } else {
      assert l.stdin.value.lastActivity + l.idleLimit in Pending(l);
    }
  }

  // ----- the change list

  predicate StdinActive(l: Watches) { l.stdinEnabled || l.stdinFlag == Delete }

  /** All four entries, as the program lays them out. */
  function Entries(l: Watches, pid: int, wake: U64): seq<Change> {
    [Change(Proc, pid, Add, 0),
     Change(Timer, 1, Add, Min(wake, MAX_TIMER_NS)),
     Change(Read, if l.signalFd.Some? then l.signalFd.value else 0, if l.signalFd.Some? then Add else NoOp, 0),
     Change(Read, 0, l.stdinFlag, 0)]
  }

  /** The number of active entries, which is also how many are submitted. */
  function NumChanges(l: Watches): nat {
    2 + (if l.signalFd.Some? then 1 else 0) + (if StdinActive(l) then 1 else 0)
  }

  function Submitted(l: Watches, pid: int, wake: U64): seq<Change> {
    Entries(l, pid, wake)[..NumChanges(l)]
  }

  /** A count of active entries is used as the length of a prefix, so the stdin
      entry reaches the kernel exactly when the signal pipe is there too. */
  lemma StdinSubmittedIffPipePresent(l: Watches, pid: int, wake: U64)
    requires l.signalFd != Some(0)
    ensures StdinActive(l) && l.stdinFlag != NoOp ==>
              (Mentions(Submitted(l, pid, wake), 0) <==> l.signalFd.Some?)
    ensures Mentions(Submitted(l, pid, wake), 0) ==> StdinActive(l) && l.stdinFlag != NoOp && l.signalFd.Some?
    ensures l.signalFd.None? ==> forall ident :: !Mentions(Submitted(l, pid, wake), ident)
  {
    var s, e := Submitted(l, pid, wake), Entries(l, pid, wake);
    assert forall i :: 0 <= i < |s| ==> s[i] == e[i];
    if StdinActive(l) && l.signalFd.Some? {
      assert |s| == 4 && s[3] == Change(Read, 0, l.stdinFlag, 0);
    }
  }

  lemma ProcessAndPipeSubmitted(l: Watches, pid: int, wake: U64)
    ensures WatchesProcess(Submitted(l, pid, wake))
    ensures l.signalFd.Some? ==> Mentions(Submitted(l, pid, wake), l.signalFd.value)
  {
    var s, e := Submitted(l, pid, wake), Entries(l, pid, wake);
    assert s[0] == e[0];
    if l.signalFd.Some? {
      assert s[2] == e[2];
    }
  }

  lemma SubmittedStdin(l: Watches, pid: int, wake: U64, watched: bool)
    requires l.signalFd.None?
    ensures ApplyStdin(Submitted(l, pid, wake), watched) == watched
  {
    var s, e := Submitted(l, pid, wake), Entries(l, pid, wake);
    assert forall i :: 0 <= i < |s| ==> s[i].flag == NoOp || s[i].filter != Read;
    ApplyNothing(s, watched);
  }

  lemma {:induction false} ApplyNothing(s: seq<Change>, watched: bool)
    requires forall i :: 0 <= i < |s| ==> s[i].flag == NoOp || s[i].filter != Read
    ensures ApplyStdin(s, watched) == watched
    decreases |s|
  {
    if s != [] { ApplyNothing(s[1..], watched); }
  }

  // ----- how often watchdogs can move

  /** How many times each watchdog has been moved forward by a timer event. */
  datatype Moves = Moves(heartbeat: nat, throttle: nat, memory: nat, stdin: nat)

  /** A watchdog with this interval has moved m times since `base`: each move
      happened at or after its due time and before the deadline. */
  ghost predicate Paced(base: nat, interval: nat, next: nat, m: nat, deadline: nat) {
    && (next == U64_MAX || next >= base + m * interval + interval)
    && (m > 0 ==> base + m * interval < deadline)
  }

  lemma PacedMove(base: nat, interval: U64, next: U64, m: nat, deadline: U64, now: U64)
    requires Paced(base, interval, next, m, deadline)
    requires next <= now < deadline
    ensures Paced(base, interval, AdvanceNs(now, interval), m + 1, deadline)
  {
    assert (m + 1) * interval == m * interval + interval;
  }

  /** A watchdog that moves m times before the deadline moves at most as often as
      its interval fits into the time available. */
  lemma MovesFit(base: nat, interval: nat, next: nat, m: nat, deadline: nat)
    requires Paced(base, interval, next, m, deadline) && base <= deadline && interval > 0
    ensures m <= (deadline - base) / interval
  {
    Quotient(m, deadline - base, interval);
  }

  lemma Quotient(m: nat, span: nat, interval: nat)
    requires interval > 0
    ensures m * interval <= span ==> m <= span / interval
  {
    var q := span / interval;
    assert span < (q + 1) * interval;
    var extra := m - (q + 1);
    assert m * interval == (q + 1) * interval + extra * interval;
    assert extra >= 0 ==> extra * interval >= 0;
  }
}
