/** The self-pipe for forwarded signals: concurrent setups race to claim it,
    handlers write to it, and cleanup takes it down again. Any number of threads
    take interleaved steps. */
module SignalPipe {
  import opened Wrappers
  import WaitLoop

  /** An open descriptor: which end of which pipe, and which thread's private pair
      it belongs to; None once the pipe has been claimed for the process. */
  datatype Fd = Fd(writes: bool, id: nat, holder: Option<nat>)

  datatype Pc =
    | Outside
    | NeedPipe
    | NeedFcntl(r: int, w: int, id: nat)
    | NeedCas(r: int, w: int, id: nat)
    | CloseBoth(r: int, w: int, id: nat, lost: bool)
    | LoserLoad
    | NeedStore
    | NeedInstall
    | HandlerLoad(sig: int)
    | HandlerWrite(fd: int, sig: int)
    | CleanReset
    | CleanSwapWrite
    | CleanCloseWrite(fd: int)
    | CleanSwapPipe
    | CleanCloseRead(fd: int)

  /** How far the process-wide pipe has come up or down. */
  datatype Stage = Free | Claimed | Stored | Ready | Reset | WriteTaken | WriteClosed | PipeTaken

  /** A setup's answer: `made` says that its pipe and fcntl calls succeeded. */
  datatype Answer = Answer(fd: Option<int>, made: bool, epoch: nat)

  /** A handler's write: the descriptor it reached, if that was open. */
  datatype Written = Written(target: Option<Fd>, claimed: nat, byte: int, sig: int)

  /** The two globals, the handler table, the descriptors and the threads; with
      them, for the proofs, the claimed pipe and its stage, and the number of
      cleanups so far. */
  datatype State = State(
    pipe: int,
    writeFd: int,
    installed: bool,
    open: map<int, Fd>,
    pcs: seq<Pc>,
    answers: seq<Answer>,
    writes: seq<Written>,
    stage: Stage,
    id: nat,
    r: int,
    w: int,
    claimer: nat,
    cleaner: Option<nat>,
    epoch: nat,
    pipes: nat)

  function Initial(threads: nat): State {
    State(-1, -1, false, map[], seq(threads, _ => Outside), [], [], Free, 0, -1, -1, 0, None, 0, 0)
  }

  const HANDLED: set<int> := {15, 2, 1, 3, 30, 31}

  predicate IsHandler(pc: Pc) { pc.HandlerLoad? || pc.HandlerWrite? }

  predicate IsPrivate(pc: Pc) { pc.NeedFcntl? || pc.NeedCas? || pc.CloseBoth? }

  predicate IsSetup(pc: Pc) { IsPrivate(pc) || pc.NeedPipe? || pc.LoserLoad? || pc.NeedStore? || pc.NeedInstall? }

  predicate IsCleanup(pc: Pc) {
    pc.CleanReset? || pc.CleanSwapWrite? || pc.CleanCloseWrite? || pc.CleanSwapPipe? || pc.CleanCloseRead?
  }

  /** What the schedule and the kernel decide in one move. */
  datatype Move =
    | StartSetup(t: nat)
    | StartHandler(t: nat, sig: int)
    | StartCleanup(t: nat)
    | Advance(t: nat, fd0: int, fd1: int, ok: bool)

  function Goto(s: State, t: nat, pc: Pc): State
    requires t < |s.pcs|
  {
    s.(pcs := s.pcs[t := pc])
  }

  function Return(s: State, t: nat, fd: Option<int>, made: bool): State
    requires t < |s.pcs|
  {
    Goto(s, t, Outside).(answers := s.answers + [Answer(fd, made, s.epoch)])
  }

  /** The setups. The kernel hands out only descriptors that are not open. */
  function SetupStep(s: State, t: nat, fd0: int, fd1: int, ok: bool): State
    requires t < |s.pcs|
  {
    match s.pcs[t]
    case NeedPipe =>
      if !ok || fd0 < 0 || fd1 < 0 || fd0 == fd1 || fd0 in s.open || fd1 in s.open then Return(s, t, None, false)
      else
        Goto(s, t, NeedFcntl(fd0, fd1, s.pipes)).(
          open := s.open[fd0 := Fd(false, s.pipes, Some(t))][fd1 := Fd(true, s.pipes, Some(t))],
          pipes := s.pipes + 1)
    case NeedFcntl(r, w, id) => Goto(s, t, if ok then NeedCas(r, w, id) else CloseBoth(r, w, id, false))
    case NeedCas(r, w, id) =>
      if s.pipe == -1 then
        Goto(s, t, NeedStore).(pipe := r, stage := Claimed, id := id, r := r, w := w, claimer := t,
                               open := s.open[r := Fd(false, id, None)][w := Fd(true, id, None)])
      else Goto(s, t, CloseBoth(r, w, id, true))
    case CloseBoth(r, w, id, lost) =>
      var s1 := s.(open := s.open - {r, w});
      if lost then Goto(s1, t, LoserLoad) else Return(s1, t, None, false)
    case LoserLoad => Return(s, t, if s.pipe >= 0 then Some(s.pipe) else None, true)
    case NeedStore => Goto(s, t, NeedInstall).(writeFd := s.w, stage := Stored)
    case NeedInstall => Return(s, t, Some(s.r), true).(installed := true, stage := Ready)
    case _ => s
  }

  function HandlerStep(s: State, t: nat): State
    requires t < |s.pcs|
  {
    match s.pcs[t]
    case HandlerLoad(sig) => Goto(s, t, if s.writeFd >= 0 then HandlerWrite(s.writeFd, sig) else Outside)
    case HandlerWrite(fd, sig) =>
      Goto(s, t, Outside).(
        writes := s.writes + [Written(if fd in s.open then Some(s.open[fd]) else None, s.id, sig % 256, sig)])
    case _ => s
  }

  /** The cleanup. A stage is entered only if there is a claimed pipe. */
  function CleanupStep(s: State, t: nat): State
    requires t < |s.pcs|
  {
    match s.pcs[t]
    case CleanReset => Goto(s, t, CleanSwapWrite).(installed := false, stage := if s.stage == Free then Free else Reset)
    case CleanSwapWrite =>
      Goto(s, t, CleanCloseWrite(s.writeFd)).(writeFd := -1, stage := if s.stage == Free then Free else WriteTaken)
    case CleanCloseWrite(fd) =>
      Goto(s, t, CleanSwapPipe).(open := if fd >= 0 then s.open - {fd} else s.open,
                                 stage := if s.stage == Free then Free else WriteClosed)
    case CleanSwapPipe =>
      Goto(s, t, CleanCloseRead(s.pipe)).(pipe := -1, stage := if s.stage == Free then Free else PipeTaken)
    case CleanCloseRead(fd) =>
      Goto(s, t, Outside).(open := if fd >= 0 then s.open - {fd} else s.open,
                           stage := Free, cleaner := None, epoch := s.epoch + 1)
    case _ => s
  }

  predicate NobodyInside(s: State) { forall t :: 0 <= t < |s.pcs| ==> s.pcs[t] == Outside }

  predicate NoHandler(s: State) { forall t :: 0 <= t < |s.pcs| ==> !IsHandler(s.pcs[t]) }

  /** One move. `quiet` is the rule the callers must keep: cleanup goes past its
      first step only while no handler is running. A move that is not possible
      changes nothing. */
  function Step(s: State, m: Move, quiet: bool): State {
    if m.t >= |s.pcs| then s
    else
      match m
      case StartSetup(t) => if s.pcs[t] == Outside && s.cleaner.None? then Goto(s, t, NeedPipe) else s
      case StartHandler(t, sig) =>
        if s.pcs[t] == Outside && s.installed && sig in HANDLED then Goto(s, t, HandlerLoad(sig)) else s
      case StartCleanup(t) =>
        if s.cleaner.None? && NobodyInside(s) then Goto(s, t, CleanReset).(cleaner := Some(t)) else s
      case Advance(t, fd0, fd1, ok) =>
        if IsSetup(s.pcs[t]) then SetupStep(s, t, fd0, fd1, ok)
        else if IsHandler(s.pcs[t]) then HandlerStep(s, t)
        else if s.pcs[t] == CleanReset || !quiet || NoHandler(s) then CleanupStep(s, t)
        else s
  }

  function Run(s: State, moves: seq<Move>, quiet: bool): State
    decreases |moves|
  {
    if moves == [] then s else Step(Run(s, moves[..|moves| - 1], quiet), moves[|moves| - 1], quiet)
  }

  // ----- invariant

  /** The two globals and the handler table at each stage. */
  predicate GlobalsMatch(s: State) {
    && s.pipe == (if s.stage == Free || s.stage == PipeTaken then -1 else s.r)
    && s.writeFd == (if s.stage in {Stored, Ready, Reset} then s.w else -1)
    && s.installed == (s.stage == Ready)
    && (s.stage != Free ==>
          && s.r >= 0 && s.w >= 0 && s.r != s.w
          && s.r in s.open && s.open[s.r] == Fd(false, s.id, None))
    && (s.stage in {Claimed, Stored, Ready, Reset, WriteTaken} ==> s.w in s.open && s.open[s.w] == Fd(true, s.id, None))
  }

  /** Every open descriptor belongs to a thread's private pair or to the claim. */
  ghost predicate Accounted(s: State) {
    forall f :: f in s.open ==>
      match s.open[f].holder
      case Some(t) =>
        && t < |s.pcs| && IsPrivate(s.pcs[t]) && s.open[f].id == s.pcs[t].id
        && f == (if s.open[f].writes then s.pcs[t].w else s.pcs[t].r)
      case None =>
        && s.stage != Free && s.open[f].id == s.id
        && f == (if s.open[f].writes then s.w else s.r)
        && (s.open[f].writes ==> s.stage in {Claimed, Stored, Ready, Reset, WriteTaken})
  }

  /** What a thread's position says about the rest. */
  predicate PcMatches(s: State, t: nat)
    requires t < |s.pcs|
  {
    var pc := s.pcs[t];
    && (IsSetup(pc) ==> s.cleaner.None?)
    && (IsCleanup(pc) ==> s.cleaner == Some(t))
    && (IsPrivate(pc) ==>
          && pc.r >= 0 && pc.w >= 0 && pc.r != pc.w
          && pc.r in s.open && s.open[pc.r] == Fd(false, pc.id, Some(t))
          && pc.w in s.open && s.open[pc.w] == Fd(true, pc.id, Some(t)))
    && ((pc.LoserLoad? || (pc.CloseBoth? && pc.lost)) ==> s.stage in {Claimed, Stored, Ready})
    && (pc.NeedStore? ==> s.stage == Claimed && s.claimer == t)
    && (pc.NeedInstall? ==> s.stage == Stored && s.claimer == t)
    && (IsHandler(pc) ==> s.stage in {Ready, Reset})
    && (pc.HandlerWrite? ==> pc.fd == s.w)
    && (IsHandler(pc) ==> pc.sig in HANDLED)
    && (pc.CleanReset? ==> s.stage in {Free, Ready})
    && (pc.CleanSwapWrite? ==> s.stage in {Free, Reset})
    && (pc.CleanCloseWrite? ==> if s.stage == Free then pc.fd == -1 else s.stage == WriteTaken && pc.fd == s.w)
    && (pc.CleanSwapPipe? ==> s.stage in {Free, WriteClosed})
    && (pc.CleanCloseRead? ==> if s.stage == Free then pc.fd == -1 else s.stage == PipeTaken && pc.fd == s.r)
  }

  ghost predicate ThreadsMatch(s: State) {
    && (forall t :: 0 <= t < |s.pcs| ==> PcMatches(s, t))
    && (s.cleaner.Some? ==> s.cleaner.value < |s.pcs| && IsCleanup(s.pcs[s.cleaner.value]))
    && (s.stage in {Claimed, Stored} ==>
          && s.claimer < |s.pcs|
          && s.pcs[s.claimer] == (if s.stage == Claimed then NeedStore else NeedInstall))
    && (s.cleaner.None? ==> s.stage in {Free, Claimed, Stored, Ready})
  }

  /** Answers of one epoch agree, and those of the current one name its pipe. */
  ghost predicate AnswersAgree(s: State) {
    && (forall i :: 0 <= i < |s.answers| ==> s.answers[i].epoch <= s.epoch && (s.answers[i].made <==> s.answers[i].fd.Some?))
    && (forall i :: 0 <= i < |s.answers| && s.answers[i].made && s.answers[i].epoch == s.epoch ==>
          s.stage != Free && s.answers[i].fd == Some(s.r))
    && (forall i, j ::
          (0 <= i < |s.answers| && 0 <= j < |s.answers| && s.answers[i].made && s.answers[j].made
           && s.answers[i].epoch == s.answers[j].epoch) ==>
            s.answers[i].fd == s.answers[j].fd)
  }

  /** Every handler wrote its signal's byte to the claimed pipe's open write end. */
  ghost predicate WritesLanded(s: State) {
    forall i :: 0 <= i < |s.writes| ==>
      var e := s.writes[i];
      e.target == Some(Fd(true, e.claimed, None)) && e.sig in HANDLED && WaitLoop.DecodeSignal(e.byte) == e.sig
  }

  ghost predicate Inv(s: State) {
    GlobalsMatch(s) && Accounted(s) && ThreadsMatch(s) && AnswersAgree(s) && WritesLanded(s)
  }

  lemma SetupKeepsGlobals(s: State, t: nat, fd0: int, fd1: int, ok: bool)
    requires GlobalsMatch(s) && Accounted(s) && ThreadsMatch(s) && t < |s.pcs| && IsSetup(s.pcs[t])
    ensures GlobalsMatch(SetupStep(s, t, fd0, fd1, ok))
  {
    assert PcMatches(s, t);
  }

  lemma ClaimKeepsAccounts(s: State, t: nat, fd0: int, fd1: int, ok: bool)
    requires GlobalsMatch(s) && Accounted(s) && ThreadsMatch(s) && t < |s.pcs|
    requires s.pcs[t].NeedPipe? || s.pcs[t].NeedCas?
    ensures Accounted(SetupStep(s, t, fd0, fd1, ok))
  {
    assert PcMatches(s, t);
    hide ThreadsMatch;
  }

  lemma SetupKeepsAccounts(s: State, t: nat, fd0: int, fd1: int, ok: bool)
    requires GlobalsMatch(s) && Accounted(s) && ThreadsMatch(s) && t < |s.pcs| && IsSetup(s.pcs[t])
    ensures Accounted(SetupStep(s, t, fd0, fd1, ok))
  {
    assert PcMatches(s, t);
    if s.pcs[t].NeedPipe? || s.pcs[t].NeedCas? {
      ClaimKeepsAccounts(s, t, fd0, fd1, ok);
    } else {
      hide ThreadsMatch;
    }
  }

  lemma SetupKeepsOthers(s: State, t: nat, u: nat, fd0: int, fd1: int, ok: bool)
    requires GlobalsMatch(s) && Accounted(s) && ThreadsMatch(s) && t < |s.pcs| && IsSetup(s.pcs[t])
    requires u < |s.pcs| && u != t
    ensures PcMatches(SetupStep(s, t, fd0, fd1, ok), u)
  {
    assert PcMatches(s, t) && PcMatches(s, u);
    assert s.cleaner.None? && s.stage in {Free, Claimed, Stored, Ready};
    hide Accounted, ThreadsMatch;
    match s.pcs[t] {
      case NeedPipe =>
      case NeedCas(_, _, _) =>
      case CloseBoth(_, _, _, _) =>
      case _ =>
    }
  }

  lemma SetupKeepsOwn(s: State, t: nat, fd0: int, fd1: int, ok: bool)
    requires GlobalsMatch(s) && ThreadsMatch(s) && t < |s.pcs| && IsSetup(s.pcs[t])
    ensures PcMatches(SetupStep(s, t, fd0, fd1, ok), t)
  {
    assert PcMatches(s, t) && s.cleaner.None? && s.stage in {Free, Claimed, Stored, Ready};
    hide ThreadsMatch, WritesLanded, AnswersAgree, Accounted;
    match s.pcs[t] {
      case NeedPipe =>
      case NeedFcntl(_, _, _) =>
      case NeedCas(_, _, _) =>
      case _ =>
    }
  }

  lemma SetupKeepsThreads(s: State, t: nat, fd0: int, fd1: int, ok: bool)
    requires GlobalsMatch(s) && Accounted(s) && ThreadsMatch(s) && t < |s.pcs| && IsSetup(s.pcs[t])
    ensures ThreadsMatch(SetupStep(s, t, fd0, fd1, ok))
  {
    var s1 := SetupStep(s, t, fd0, fd1, ok);
    assert PcMatches(s, t);
    SetupKeepsOwn(s, t, fd0, fd1, ok);
    hide PcMatches, Accounted;
    forall u | 0 <= u < |s.pcs| && u != t ensures PcMatches(s1, u) {
      SetupKeepsOthers(s, t, u, fd0, fd1, ok);
    }
  }

  lemma SetupKeepsAnswers(s: State, t: nat, fd0: int, fd1: int, ok: bool)
    requires GlobalsMatch(s) && AnswersAgree(s) && ThreadsMatch(s) && t < |s.pcs| && IsSetup(s.pcs[t])
    ensures AnswersAgree(SetupStep(s, t, fd0, fd1, ok))
  {
    assert PcMatches(s, t);
    hide ThreadsMatch;
    match s.pcs[t] {
      case LoserLoad =>
      case NeedInstall =>
      case _ =>
    }
  }

  lemma SetupKeepsWrites(s: State, t: nat, fd0: int, fd1: int, ok: bool)
    requires WritesLanded(s) && t < |s.pcs|
    ensures WritesLanded(SetupStep(s, t, fd0, fd1, ok))
  {
  }

  lemma HandlerKeepsInv(s: State, t: nat)
    requires Inv(s) && t < |s.pcs| && IsHandler(s.pcs[t])
    ensures Inv(HandlerStep(s, t))
  {
    assert PcMatches(s, t);
    var s1 := HandlerStep(s, t);
    forall u | 0 <= u < |s.pcs| ensures PcMatches(s1, u) {
      assert PcMatches(s, u);
    }
  }

  lemma CleanupKeepsThreads(s: State, t: nat)
    requires Inv(s) && t < |s.pcs| && IsCleanup(s.pcs[t])
    requires s.pcs[t] == CleanReset || NoHandler(s)
    ensures ThreadsMatch(CleanupStep(s, t))
  {
    assert PcMatches(s, t);
    var s1 := CleanupStep(s, t);
    forall u | 0 <= u < |s.pcs| ensures PcMatches(s1, u) {
      assert PcMatches(s, u);
    }
  }

  lemma CleanupKeepsRest(s: State, t: nat)
    requires Inv(s) && t < |s.pcs| && IsCleanup(s.pcs[t])
    requires s.pcs[t] == CleanReset || NoHandler(s)
    ensures GlobalsMatch(CleanupStep(s, t)) && Accounted(CleanupStep(s, t))
    ensures AnswersAgree(CleanupStep(s, t)) && WritesLanded(CleanupStep(s, t))
  {
    assert PcMatches(s, t);
  }

  /** Every move keeps the invariant, provided cleanup keeps clear of handlers. */
  lemma StepKeepsInv(s: State, m: Move)
    requires Inv(s)
    ensures Inv(Step(s, m, true)) && |Step(s, m, true).pcs| == |s.pcs|
  {
    if m.t < |s.pcs| {
      if m.Advance? {
        AdvanceKeepsInv(s, m.t, m.fd0, m.fd1, m.ok);
      } else {
        StartKeepsInv(s, m);
      }
    }
  }

  lemma AdvanceKeepsInv(s: State, t: nat, fd0: int, fd1: int, ok: bool)
    requires Inv(s) && t < |s.pcs|
    ensures var s1 := Step(s, Advance(t, fd0, fd1, ok), true);
            Inv(s1) && |s1.pcs| == |s.pcs|
  {
    hide GlobalsMatch, Accounted, ThreadsMatch, AnswersAgree, WritesLanded, NoHandler;
    if IsSetup(s.pcs[t]) {
      SetupKeepsGlobals(s, t, fd0, fd1, ok);
      SetupKeepsAccounts(s, t, fd0, fd1, ok);
      SetupKeepsThreads(s, t, fd0, fd1, ok);
      SetupKeepsAnswers(s, t, fd0, fd1, ok);
      SetupKeepsWrites(s, t, fd0, fd1, ok);
    } else if IsHandler(s.pcs[t]) {
      HandlerKeepsInv(s, t);
    } else if IsCleanup(s.pcs[t]) && (s.pcs[t] == CleanReset || NoHandler(s)) {
      CleanupKeepsThreads(s, t);
      CleanupKeepsRest(s, t);
    }
  }

  lemma StartKeepsInv(s: State, m: Move)
    requires Inv(s) && !m.Advance? && m.t < |s.pcs|
    ensures Inv(Step(s, m, true)) && |Step(s, m, true).pcs| == |s.pcs|
  {
    var s1 := Step(s, m, true);
    assert PcMatches(s, m.t);
    StartKeepsThreads(s, m);
    hide ThreadsMatch;
    assert GlobalsMatch(s1) && Accounted(s1) && AnswersAgree(s1) && WritesLanded(s1);
  }

  lemma StartKeepsThreads(s: State, m: Move)
    requires Inv(s) && !m.Advance? && m.t < |s.pcs|
    ensures ThreadsMatch(Step(s, m, true))
  {
    var s1 := Step(s, m, true);
    hide Accounted, AnswersAgree, WritesLanded;
    assert PcMatches(s, m.t) && PcMatches(s1, m.t);
    forall u | 0 <= u < |s.pcs| && u != m.t ensures PcMatches(s1, u) {
      assert PcMatches(s, u);
    }
  }

  lemma InitialKeepsInv(threads: nat)
    ensures Inv(Initial(threads)) && |Initial(threads).pcs| == threads
  {
    forall t | 0 <= t < threads ensures PcMatches(Initial(threads), t) {}
  }

  lemma {:induction false} EveryRunKeepsInv(threads: nat, moves: seq<Move>)
    ensures Inv(Run(Initial(threads), moves, true))
    ensures |Run(Initial(threads), moves, true).pcs| == threads
    decreases |moves|
  {
    hide Inv, Step, Initial;
    if moves == [] {
      InitialKeepsInv(threads);
    } else {
      EveryRunKeepsInv(threads, moves[..|moves| - 1]);
      StepKeepsInv(Run(Initial(threads), moves[..|moves| - 1], true), moves[|moves| - 1]);
    }
  }

  /** The main result, over every interleaving: when nobody is inside, no pipe is
      open before the first claim and after a cleanup, and exactly one is open in
      between, so losing setups and whole setup-cleanup cycles leak nothing; the
      setups of one epoch whose own pipe came up all answer the same descriptor,
      the one claimed if the epoch is still running; and every handler wrote its
      signal, undamaged, to the open write end of the claimed pipe. */
  lemma ExactlyOnePipeSurvives(threads: nat, moves: seq<Move>)
    ensures var s := Run(Initial(threads), moves, true);
            && (NobodyInside(s) ==>
                  if s.pipe == -1 then s.open == map[] && s.writeFd == -1 && !s.installed
                  else s.open == map[s.pipe := Fd(false, s.id, None), s.writeFd := Fd(true, s.id, None)]
                       && s.pipe != s.writeFd && s.installed)
            && AnswersAgree(s)
            && (forall i :: 0 <= i < |s.answers| && s.answers[i].made && s.answers[i].epoch == s.epoch && s.cleaner.None? ==>
                  s.answers[i].fd == Some(s.pipe))
            && WritesLanded(s)
  {
    EveryRunKeepsInv(threads, moves);
    var s := Run(Initial(threads), moves, true);
    hide Run;
    if NobodyInside(s) {
      QuiescentStages(s);
    }
  }

  lemma QuiescentStages(s: State)
    requires Inv(s) && NobodyInside(s)
    ensures s.stage in {Free, Ready}
    ensures s.pipe == -1 ==> s.open == map[] && s.writeFd == -1 && !s.installed
    ensures s.pipe != -1 ==> s.open == map[s.pipe := Fd(false, s.id, None), s.writeFd := Fd(true, s.id, None)]
                             && s.pipe != s.writeFd && s.installed
  {
    hide AnswersAgree, WritesLanded;
    if s.stage == Free {
      assert forall f :: f !in s.open;
    } else {
      assert forall f :: f in s.open ==> f in {s.r, s.w};
    }
  }

  /** Without the rule every such write is lost: once cleanup has swapped and closed
      the write descriptor, a handler that had loaded it writes to nothing, and one
      that had not loaded it yet drops its signal. */
  lemma PassingAHandlerLosesItsSignal(s: State, t: nat, u: nat)
    requires Inv(s) && t < |s.pcs| && u < |s.pcs|
    requires s.pcs[t] == CleanSwapWrite && IsHandler(s.pcs[u])
    ensures var s1 := CleanupStep(CleanupStep(s, t), t);
            && IsHandler(s1.pcs[u])
            && HandlerStep(s1, u).writes ==
                 if s.pcs[u].HandlerLoad? then s.writes
                 else s.writes + [Written(None, s.id, s.pcs[u].sig % 256, s.pcs[u].sig)]
  {
    assert PcMatches(s, t) && PcMatches(s, u);
  }

  /** Such a run exists: thread 1 takes a SIGTERM while thread 0 cleans up. */
  const SETUP: seq<Move> := [StartSetup(0), Go(0), Go(0)] + [Go(0), Go(0), Go(0)]

  const CAUGHT: seq<Move> := [StartCleanup(0), StartHandler(1, 15), Go(1)]

  const PASSED: seq<Move> := [Go(0), Go(0), Go(0)]

  function Go(t: nat): Move { Advance(t, 3, 4, true) }

  lemma OneMove(s: State, m: Move, quiet: bool)
    ensures Run(s, [m], quiet) == Step(s, m, quiet)
  {
    assert [m][..0] == [];
  }

  lemma ThreeMoves(s: State, a: Move, b: Move, c: Move, quiet: bool)
    ensures Run(s, [a, b, c], quiet) == Step(Step(Step(s, a, quiet), b, quiet), c, quiet)
  {
    hide Step;
    OneMove(s, a, quiet);
    assert [a, b, c][..2] == [a, b] && [a, b][..1] == [a];
    assert Run(s, [a, b], quiet) == Step(Step(s, a, quiet), b, quiet);
  }

  lemma {:induction false} RunOn(s: State, moves: seq<Move>, more: seq<Move>, quiet: bool)
    ensures Run(s, moves + more, quiet) == Run(Run(s, moves, quiet), more, quiet)
    decreases |more|
  {
    hide Step;
    if more == [] {
      assert moves + more == moves;
    } else {
      var all := moves + more;
      assert all[..|all| - 1] == moves + more[..|more| - 1];
      RunOn(s, moves, more[..|more| - 1], quiet);
    }
  }

  /** One pipe is up and nobody is inside. */
  predicate IsUp(s: State) {
    && s.pcs == [Outside, Outside] && s.installed && s.stage == Ready && s.cleaner == None
    && s.writeFd == 4 && s.id == 0 && 4 in s.open && s.open[4] == Fd(true, 0, None) && s.writes == []
  }

  lemma ThePipeComesUp(quiet: bool)
    ensures IsUp(Run(Initial(2), SETUP, quiet))
  {
    ThreeMoves(Initial(2), StartSetup(0), Go(0), Go(0), quiet);
    var s := Run(Initial(2), [StartSetup(0), Go(0), Go(0)], quiet);
    assert s.pcs == [NeedCas(3, 4, 0), Outside] && s.pipe == -1;
    RunOn(Initial(2), [StartSetup(0), Go(0), Go(0)], [Go(0), Go(0), Go(0)], quiet);
    ThreeMoves(s, Go(0), Go(0), Go(0), quiet);
    ThePipeIsClaimed(s, quiet);
  }

  lemma ThePipeIsClaimed(s: State, quiet: bool)
    requires s.pcs == [NeedCas(3, 4, 0), Outside] && s.pipe == -1 && s.cleaner == None && s.writes == []
    ensures IsUp(Step(Step(Step(s, Go(0), quiet), Go(0), quiet), Go(0), quiet))
  {
    var s1 := Step(s, Go(0), quiet);
    assert s1.pcs == [NeedStore, Outside] && s1.w == 4;
  }

  /** The handler has loaded the descriptor when cleanup starts. */
  predicate IsCaught(s: State) {
    && s.pcs == [CleanReset, HandlerWrite(4, 15)] && s.stage == Ready && s.writeFd == 4
    && s.id == 0 && 4 in s.open && s.open[4] == Fd(true, 0, None) && s.writes == []
  }

  lemma AHandlerIsCaught(s: State, quiet: bool)
    requires IsUp(s)
    ensures IsCaught(Run(s, CAUGHT, quiet))
  {
    ThreeMoves(s, StartCleanup(0), StartHandler(1, 15), Go(1), quiet);
    var s1 := Step(s, StartCleanup(0), quiet);
    assert s1.pcs == [CleanReset, Outside] && s1.installed;
    var s2 := Step(s1, StartHandler(1, 15), quiet);
    assert s2.pcs == [CleanReset, HandlerLoad(15)] && s2.writeFd == 4;
  }

  lemma CleanupGoesOn(s: State, quiet: bool)
    requires IsCaught(s)
    ensures var s1 := Run(s, PASSED, quiet);
            && s1.pcs == [if quiet then CleanSwapWrite else CleanSwapPipe, HandlerWrite(4, 15)]
            && s1.writes == [] && s1.id == 0
            && (if quiet then s1.open == s.open else 4 !in s1.open)
  {
    ThreeMoves(s, Go(0), Go(0), Go(0), quiet);
    var s1 := Step(s, Go(0), quiet);
    assert s1.pcs == [CleanSwapWrite, HandlerWrite(4, 15)] && IsHandler(s1.pcs[1]);
    if quiet {
      assert !NoHandler(s1);
      assert Step(s1, Go(0), quiet) == s1;
    } else {
      assert Step(s1, Go(0), quiet).pcs == [CleanCloseWrite(4), HandlerWrite(4, 15)];
    }
  }

  lemma TheHandlerWrites(s: State, quiet: bool)
    requires |s.pcs| == 2 && s.pcs[1] == HandlerWrite(4, 15) && s.writes == [] && s.id == 0
    ensures Run(s, [Go(1)], quiet).writes == [Written(if 4 in s.open then Some(s.open[4]) else None, 0, 15, 15)]
  {
    OneMove(s, Go(1), quiet);
  }

  /** The same schedule with the rule and without it: with it the byte arrives, without
      it the write goes to a closed descriptor. */
  lemma AHandlerCanBePassed(quiet: bool)
    ensures Run(Initial(2), SETUP + CAUGHT + PASSED + [Go(1)], quiet).writes
            == [Written(if quiet then Some(Fd(true, 0, None)) else None, 0, 15, 15)]
  {
    hide Run, Step, Initial;
    ThePipeComesUp(quiet);
    var s1 := Run(Initial(2), SETUP, quiet);
    AHandlerIsCaught(s1, quiet);
    var s2 := Run(s1, CAUGHT, quiet);
    CleanupGoesOn(s2, quiet);
    TheHandlerWrites(Run(s2, PASSED, quiet), quiet);
    RunOn(Initial(2), SETUP, CAUGHT, quiet);
    RunOn(Initial(2), SETUP + CAUGHT, PASSED, quiet);
    RunOn(Initial(2), SETUP + CAUGHT + PASSED, [Go(1)], quiet);
  }
}
