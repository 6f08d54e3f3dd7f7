/** A write-once cell shared by any number of threads, as interleaved steps of
    its operations, and how far these take effect as on an atomic write-once
    register. Steps are sequentially consistent. */
module AtomicOnce {
  import opened Wrappers

  datatype Phase = Uninit | Initializing | Initialized

  /** Where a thread is. `InitReturn` is a winning initializer about to hand out
      the value it published. */
  datatype Pc<T> =
    | Outside
    | GetLoad
    | GetRead
    | SetCas(v: T)
    | Write(v: T, isSet: bool)
    | Publish(v: T, isSet: bool)
    | InitLoad(v: T)
    | InitCas(v: T)
    | Compute(v: T)
    | Spin
    | InitRead
    | InitReturn(v: T)

  /** A call: the value of `Init` is what its closure would return. */
  datatype Call<T> = Get | Set(v: T) | Init(v: T)

  /** An operation at the moment it takes effect, with its answer. `early` marks a
      failed set that found another thread still initializing. */
  datatype Event<T> =
    | DidGet(r: Option<T>)
    | DidSet(v: T, ok: bool, early: bool)
    | DidInit(v: T, won: bool)

  datatype Cell<T> = Cell(phase: Phase, value: Option<T>, pcs: seq<Pc<T>>, log: seq<Event<T>>)

  function Begin<T>(call: Call<T>): Pc<T> {
    match call
    case Get => GetLoad
    case Set(v) => SetCas(v)
    case Init(v) => InitLoad(v)
  }

  function Goto<T>(s: Cell<T>, t: nat, pc: Pc<T>): Cell<T>
    requires t < |s.pcs|
  {
    s.(pcs := s.pcs[t := pc])
  }

  function Log<T>(s: Cell<T>, e: Event<T>): Cell<T> { s.(log := s.log + [e]) }

  /** One step of thread t; a thread outside the cell starts `call`. */
  function Step<T(==)>(s: Cell<T>, t: nat, call: Call<T>): Cell<T>
    requires t < |s.pcs|
  {
    match s.pcs[t]
    case Outside => Goto(s, t, Begin(call))
    case GetLoad =>
      if s.phase == Initialized then Goto(s, t, GetRead) else Log(Goto(s, t, Outside), DidGet(None))
    case GetRead => Log(Goto(s, t, Outside), DidGet(s.value))
    case SetCas(v) =>
      if s.phase == Uninit then Goto(s.(phase := Initializing), t, Write(v, true))
      else Log(Goto(s, t, Outside), DidSet(v, false, s.phase == Initializing))
    case Write(v, isSet) => Goto(s.(value := Some(v)), t, Publish(v, isSet))
    case Publish(v, isSet) =>
      var s1 := s.(phase := Initialized);
      if isSet then Log(Goto(s1, t, Outside), DidSet(v, true, false))
      else Log(Goto(s1, t, InitReturn(v)), DidInit(v, true))
    case InitLoad(v) => Goto(s, t, if s.phase == Initialized then InitRead else InitCas(v))
    case InitCas(v) =>
      if s.phase == Uninit then Goto(s.(phase := Initializing), t, Compute(v))
      else Goto(s, t, if s.phase == Initializing then Spin else InitRead)
    case Compute(v) => Goto(s, t, Write(v, false))
    case Spin => if s.phase == Initializing then s else Goto(s, t, InitRead)
    case InitRead => if s.value.Some? then Log(Goto(s, t, Outside), DidInit(s.value.value, false)) else s
    case InitReturn(v) => Goto(s, t, Outside)
  }

  datatype Move<T> = Move(thread: nat, call: Call<T>)

  /** A run: any schedule of any number of threads. Moves of threads that do not
      exist are skipped. */
  function Run<T(==)>(s: Cell<T>, moves: seq<Move<T>>): Cell<T>
    decreases |moves|
  {
    if moves == [] then s
    else
      var prior := Run(s, moves[..|moves| - 1]);
      var m := moves[|moves| - 1];
      if m.thread < |prior.pcs| then Step(prior, m.thread, m.call) else prior
  }

  function Fresh<T>(threads: nat): Cell<T> { Cell(Uninit, None, seq(threads, _ => Outside), []) }

  // ----- the register it should be

  /** The atomic write-once register: the state after an operation, if the
      operation may give that answer in state `reg`. */
  function Apply<T(==)>(reg: Option<T>, e: Event<T>): Option<Option<T>> {
    match e
    case DidGet(r) => if r == reg then Some(reg) else None
    case DidSet(v, ok, _) => if ok == reg.None? then Some(if ok then Some(v) else reg) else None
    case DidInit(v, won) =>
      if won then (if reg.None? then Some(Some(v)) else None)
      else if reg == Some(v) then Some(reg) else None
  }

  /** The register after a whole log, or None if some answer is impossible. With
      `lenient`, early failures of set are passed over. */
  function Register<T(==)>(log: seq<Event<T>>, lenient: bool): Option<Option<T>> {
    if log == [] then Some(None)
    else
      var prior := Register(log[..|log| - 1], lenient);
      var e := log[|log| - 1];
      if prior.None? then None
      else if lenient && IsEarly(e) then prior
      else Apply(prior.value, e)
  }

  predicate IsEarly<T>(e: Event<T>) { e.DidSet? && !e.ok && e.early }

  // ----- invariant

  predicate IsWriter<T>(pc: Pc<T>) { pc.Write? || pc.Publish? || pc.Compute? }

  predicate IsReader<T>(pc: Pc<T>) { pc.GetRead? || pc.InitRead? || pc.InitReturn? }

  /** What other threads may see. */
  function Visible<T>(s: Cell<T>): Option<T> { if s.phase == Initialized then s.value else None }

  /** Exactly while initializing there is a writer, and only one. */
  ghost predicate OneWriter<T(!new)>(s: Cell<T>) {
    && (forall t :: 0 <= t < |s.pcs| && IsWriter(s.pcs[t]) ==> s.phase == Initializing)
    && (forall t, u :: 0 <= t < |s.pcs| && 0 <= u < |s.pcs| && IsWriter(s.pcs[t]) && IsWriter(s.pcs[u]) ==> t == u)
    && (s.phase == Initializing ==> exists t :: 0 <= t < |s.pcs| && IsWriter(s.pcs[t]))
  }

  /** A thread about to read the value finds it initialized, which also means that
      nobody is writing it. */
  ghost predicate SafeReads<T(!new)>(s: Cell<T>) {
    && (forall t :: 0 <= t < |s.pcs| && IsReader(s.pcs[t]) ==> s.phase == Initialized)
    && (forall t :: 0 <= t < |s.pcs| && (s.pcs[t].Publish? || s.pcs[t].InitReturn?) ==> s.value == Some(s.pcs[t].v))
    && (forall t :: 0 <= t < |s.pcs| && s.pcs[t].Spin? ==> s.phase != Uninit)
    && (s.phase == Uninit ==> s.value.None?)
    && (s.phase == Initialized ==> s.value.Some?)
  }

  ghost predicate Inv<T(!new)>(s: Cell<T>) { OneWriter(s) && SafeReads(s) }

  lemma StepKeepsOneWriter<T(!new)>(s: Cell<T>, t: nat, call: Call<T>)
    requires OneWriter(s) && t < |s.pcs|
    ensures OneWriter(Step(s, t, call))
  {
    var s' := Step(s, t, call);
    assert forall u :: 0 <= u < |s.pcs| && u != t ==> s'.pcs[u] == s.pcs[u];
    if s.phase == Initializing && s'.phase == Initializing {
      var owner :| 0 <= owner < |s.pcs| && IsWriter(s.pcs[owner]);
      assert IsWriter(s'.pcs[owner]);
    } else if s'.phase == Initializing {
      assert IsWriter(s'.pcs[t]);
    }
  }

  lemma StepKeepsSafeReads<T(!new)>(s: Cell<T>, t: nat, call: Call<T>)
    requires OneWriter(s) && SafeReads(s) && t < |s.pcs|
    ensures SafeReads(Step(s, t, call))
  {
    var s' := Step(s, t, call);
    assert forall u :: 0 <= u < |s.pcs| && u != t ==> s'.pcs[u] == s.pcs[u];
    if s.pcs[t].Write? {
      forall u | 0 <= u < |s.pcs| && s.pcs[u].Publish? ensures u == t { assert IsWriter(s.pcs[u]) && IsWriter(s.pcs[t]); }
    }
  }

  predicate IsOrdered(a: Phase, b: Phase) {
    a == b || a == Uninit || b == Initialized
  }

  /** A step keeps the invariant, the phase only moves forward, and a value once
      visible never changes. */
  lemma StepKeepsInv<T(!new)>(s: Cell<T>, t: nat, call: Call<T>)
    requires Inv(s) && t < |s.pcs|
    ensures Inv(Step(s, t, call))
    ensures IsOrdered(s.phase, Step(s, t, call).phase)
    ensures s.phase == Initialized ==> Step(s, t, call).value == s.value
  {
    StepKeepsOneWriter(s, t, call);
    StepKeepsSafeReads(s, t, call);
  }

  /** What a step logs is what the register would answer at that moment, unless it
      is a set that failed early. */
  lemma StepIsARegisterStep<T(!new)>(s: Cell<T>, t: nat, call: Call<T>)
    requires Inv(s) && t < |s.pcs|
    ensures var s' := Step(s, t, call);
            (s'.log == s.log && Visible(s') == Visible(s))
            || (|s'.log| == |s.log| + 1 && s'.log[..|s.log|] == s.log
                && (var e := s'.log[|s.log|];
                    if IsEarly(e) then s.phase == Initializing && Visible(s) == Visible(s') == None
                    else Apply(Visible(s), e) == Some(Visible(s'))))
  {
  }

  ghost predicate Refines<T(!new)>(s: Cell<T>) {
    && Inv(s)
    && Register(s.log, true) == Some(Visible(s))
    && (Register(s.log, false) == (if exists i :: 0 <= i < |s.log| && IsEarly(s.log[i]) then None else Some(Visible(s))))
  }

  lemma RegisterSnoc<T>(log: seq<Event<T>>, e: Event<T>, lenient: bool)
    ensures Register(log + [e], lenient) ==
            var prior := Register(log, lenient);
            if prior.None? then None else if lenient && IsEarly(e) then prior else Apply(prior.value, e)
  {
    assert (log + [e])[..|log|] == log;
  }

  lemma StepRefines<T(!new)>(s: Cell<T>, t: nat, call: Call<T>)
    requires Refines(s) && t < |s.pcs|
    ensures Refines(Step(s, t, call))
  {
    var s' := Step(s, t, call);
    StepKeepsInv(s, t, call);
    StepIsARegisterStep(s, t, call);
    if s'.log != s.log {
      var e := s'.log[|s.log|];
      assert s'.log == s.log + [e];
      RegisterSnoc(s.log, e, true);
      RegisterSnoc(s.log, e, false);
      assert forall i :: 0 <= i < |s.log| ==> s'.log[i] == s.log[i];
    }
  }

  /** Every run of every number of threads: passing over early failures, the
      operations have taken effect one at a time, each at its step in the log, on an
      atomic write-once register. In that one order an early failure is never
      right; whether there is another is a matter of when calls were made. */
  lemma {:induction false} EveryRunRefines<T(!new)>(threads: nat, moves: seq<Move<T>>)
    ensures Refines(Run(Fresh(threads), moves))
    ensures |Run(Fresh(threads), moves).pcs| == threads
  {
    if moves == [] {
      assert Inv(Fresh<T>(threads));
    } else {
      EveryRunRefines(threads, moves[..|moves| - 1]);
      var prior := Run(Fresh(threads), moves[..|moves| - 1]);
      var m := moves[|moves| - 1];
      if m.thread < threads { StepRefines(prior, m.thread, m.call); }
    }
  }

  /** A value that is visible at some point of a run is the value ever after. */
  lemma {:induction false} VisibleForGood<T(!new)>(threads: nat, moves: seq<Move<T>>, later: seq<Move<T>>)
    requires Run(Fresh(threads), moves).phase == Initialized
    ensures Visible(Run(Fresh(threads), moves + later)) == Visible(Run(Fresh(threads), moves)) != None
    ensures Run(Fresh(threads), moves + later).phase == Initialized
    decreases |later|
  {
    if later == [] {
      EveryRunRefines(threads, moves);
      assert moves + later == moves;
    } else {
      var shorter := later[..|later| - 1];
      VisibleForGood(threads, moves, shorter);
      EveryRunRefines(threads, moves + shorter);
      var all := moves + later;
      assert all[..|all| - 1] == moves + shorter && all[|all| - 1] == later[|later| - 1];
      var m := later[|later| - 1];
      if m.thread < threads { StepKeepsInv(Run(Fresh(threads), moves + shorter), m.thread, m.call); }
    }
  }

  /** The value an operation hands out, if it does. */
  function Seen<T>(e: Event<T>): Option<T> {
    match e
    case DidGet(r) => r
    case DidSet(_, _, _) => None
    case DidInit(v, _) => Some(v)
  }

  predicate Wins<T>(e: Event<T>) { (e.DidSet? && e.ok) || (e.DidInit? && e.won) }

  /** In a log the register accepts, at most one operation wins and all values
      handed out are the one it wrote. */
  lemma {:induction false} AcceptedLogsAgree<T(!new)>(log: seq<Event<T>>, i: nat, j: nat)
    requires Register(log, true).Some? && i < |log| && j < |log|
    ensures Seen(log[i]).Some? ==> Register(log, true).value == Seen(log[i])
    ensures Wins(log[i]) && Wins(log[j]) ==> i == j
    ensures Wins(log[i]) ==> Register(log, true).value == Some(log[i].v)
  {
    var n := |log| - 1;
    var prior := log[..n];
    if i < n { AcceptedLogsAgree(prior, i, i); }
    if j < n { AcceptedLogsAgree(prior, j, j); }
    if i < n && j < n { AcceptedLogsAgree(prior, i, j); }
  }

  /** All successful reads of a run agree, and one operation at most wins. */
  lemma ReadersAgreeAndOneWins<T(!new)>(threads: nat, moves: seq<Move<T>>, i: nat, j: nat)
    requires i < |Run(Fresh(threads), moves).log| && j < |Run(Fresh(threads), moves).log|
    ensures var log := Run(Fresh(threads), moves).log;
            && (Seen(log[i]).Some? && Seen(log[j]).Some? ==> Seen(log[i]) == Seen(log[j]))
            && (Wins(log[i]) && Wins(log[j]) ==> i == j)
  {
    EveryRunRefines(threads, moves);
    AcceptedLogsAgree(Run(Fresh(threads), moves).log, i, j);
    AcceptedLogsAgree(Run(Fresh(threads), moves).log, j, i);
  }

  /** Two threads, the first of which stops after claiming the cell. */
  const CLAIMED: seq<Move<int>> := [Move(0, Set(1)), Move(0, Get)]

  lemma ClaimedCell()
    ensures Run(Fresh(2), CLAIMED) == Cell(Initializing, None, [Write(1, true), Outside], [])
  {
    var s0 := Fresh<int>(2);
    assert s0.pcs == [Outside, Outside];
    RunSnoc(s0, [], CLAIMED[0]);
    assert [] + [CLAIMED[0]] == [CLAIMED[0]];
    assert Run(s0, [CLAIMED[0]]).pcs == [SetCas(1), Outside];
    RunSnoc(s0, [CLAIMED[0]], CLAIMED[1]);
    assert [CLAIMED[0]] + [CLAIMED[1]] == CLAIMED;
    assert Run(s0, CLAIMED).pcs == [Write(1, true), Outside];
  }

  lemma TwoMoves(s: Cell<int>, moves: seq<Move<int>>, c: Call<int>)
    requires |Run(s, moves).pcs| == 2
    ensures Run(s, moves + [Move(1, c)] + [Move(1, c)]) == Step(Step(Run(s, moves), 1, c), 1, c)
  {
    RunSnoc(s, moves, Move(1, c));
    RunSnoc(s, moves + [Move(1, c)], Move(1, c));
  }

  /** The exception is real: a set can fail, and a get after it find nothing. */
  lemma AFailedSetCanBeFollowedByAnEmptyGet()
    ensures exists moves: seq<Move<int>> ::
              Run(Fresh(2), moves).log == [DidSet(2, false, true), DidGet(None)]
  {
    ClaimedCell();
    var s2 := Run(Fresh<int>(2), CLAIMED);
    var afterSet := CLAIMED + [Move(1, Set(2))] + [Move(1, Set(2))];
    TwoMoves(Fresh(2), CLAIMED, Set(2));
    var s4 := Step(Step(s2, 1, Set(2)), 1, Set(2));
    assert Step(s2, 1, Set(2)).pcs == [Write(1, true), SetCas(2)];
    assert s4.pcs == [Write(1, true), Outside] && s4.log == [DidSet(2, false, true)];
    TwoMoves(Fresh(2), afterSet, Get);
    assert Step(s4, 1, Get).pcs == [Write(1, true), GetLoad];
    assert Run(Fresh(2), afterSet + [Move(1, Get)] + [Move(1, Get)]).log == [DidSet(2, false, true), DidGet(None)];
  }

  lemma RunSnoc<T>(s: Cell<T>, moves: seq<Move<T>>, m: Move<T>)
    ensures Run(s, moves + [m]) ==
            var prior := Run(s, moves);
            if m.thread < |prior.pcs| then Step(prior, m.thread, m.call) else prior
  {
    assert (moves + [m])[..|moves|] == moves;
  }
}
